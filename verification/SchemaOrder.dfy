/** How the outcome of the validator depends on the order in which Go visits maps:
    which outcomes some order brings about, found without trying orders. */
module SchemaOrder {
  import opened Options
  import opened GoValues
  import opened JsonSchema

  // ----- The outcomes a schema and a value allow

  /** Some order ends in this outcome.  A panicking or failing part hides what
      would come after it, so a part counts only when all before it can let it. */
  ghost predicate Can(schema: Value, value: Value, o: Outcome)
    requires schema.Object?
    decreases schema, 1
  {
    var first := EnumOutcome(schema, value);
    if !first.Accepted? then o == first
    else (o != Accepted && CanAnyOf(schema, value, o)) || (CanAnyOf(schema, value, Accepted) && CanType(schema, value, o))
  }

  function EnumOutcome(schema: Value, value: Value): Outcome
    requires schema.Object?
  {
    var enum := Get(schema.fields, "enum");
    if enum.List? then CheckEnum(enum.items, value, 0) else Accepted
  }

  /** Branch `j` decides, after all before it rejected; or no branch does. */
  ghost predicate BranchDecides(schema: Value, value: Value, j: int, o: Outcome)
    requires schema.Object? && Get(schema.fields, "anyOf").List?
    decreases schema, 0, 0
  {
    var branches := Get(schema.fields, "anyOf").items;
    && 0 <= j <= |branches|
    && (if j == |branches| then o == Rejected else branches[j].Object? && o != Rejected && Can(branches[j], value, o))
    && forall k :: 0 <= k < j && branches[k].Object? ==> Can(branches[k], value, Rejected)
  }

  ghost predicate CanAnyOf(schema: Value, value: Value, o: Outcome)
    requires schema.Object?
    decreases schema, 0, 1
  {
    var branches := Get(schema.fields, "anyOf");
    if !branches.List? then o == Accepted
    else
      match SelectBranch(branches.items, value)
      case Some(i) => Can(branches.items[i], value, o)
      case None => exists j :: BranchDecides(schema, value, j, o)
  }

  /** Item `j` decides, after all before it were accepted; or no item does. */
  ghost predicate ItemDecides(items: Value, values: seq<Value>, j: int, o: Outcome)
    requires items.Object?
    decreases items, 2
  {
    && 0 <= j <= |values|
    && (if j == |values| then o == Accepted else o != Accepted && Can(items, values[j], o))
    && forall k :: 0 <= k < j ==> Can(items, values[k], Accepted)
  }

  /** Properties are visited in any order, so each of them can decide. */
  ghost predicate CanType(schema: Value, value: Value, o: Outcome)
    requires schema.Object?
    decreases schema, 0
  {
    var properties := Properties(schema.fields);
    match KindOf(schema.fields)
    case ObjectKind =>
      if !value.Object? || !RequiredPresent(Get(schema.fields, "required"), value.fields) || !NoneUnknown(schema.fields, value.fields)
      then o == Rejected
      else if o == Accepted
      then forall k :: k in value.fields && Get(properties, k).Object? ==> Can(Get(properties, k), value.fields[k], Accepted)
      else exists k :: k in value.fields && Get(properties, k).Object? && Can(Get(properties, k), value.fields[k], o)
    case ArrayKind =>
      if !value.List? || !InLimits(schema.fields, "minItems", "maxItems", |value.items| as real) then o == Rejected
      else if !Get(schema.fields, "items").Object? then o == Accepted
      else exists j :: ItemDecides(Get(schema.fields, "items"), value.items, j, o)
    case _ => o == Check(AcceptsType(false, schema, value))
  }

  ghost predicate MayPanic(schema: Value, value: Value)
    requires schema.Object?
  {
    Can(schema, value, Panicked)
  }

  ghost predicate MayFinish(schema: Value, value: Value)
    requires schema.Object?
  {
    Can(schema, value, Check(Accepts(false, schema, value)))
  }

  // ----- Every run ends in an outcome that is allowed

  lemma {:induction false} RunIsAllowed(ord: Order, schema: Value, value: Value, site: Site)
    requires schema.Object? && IsOrder(ord)
    ensures Can(schema, value, Validate(ord, schema, value, site))
    decreases schema, 4, 0
  {
    AnyOfIsAllowed(ord, schema, value, site);
    TypeIsAllowed(ord, schema, value, site);
  }

  lemma {:induction false} AnyOfIsAllowed(ord: Order, schema: Value, value: Value, site: Site)
    requires schema.Object? && IsOrder(ord)
    ensures CanAnyOf(schema, value, CheckAnyOf(ord, schema, value, site))
    decreases schema, 3, 0
  {
    var branches := Get(schema.fields, "anyOf");
    if branches.List? {
      match SelectBranch(branches.items, value)
      case Some(i) => RunIsAllowed(ord, branches.items[i], value, site + [Branch(i)]);
      case None => var j := BranchesAreAllowed(ord, schema, value, site, 0);
    }
  }

  lemma {:induction false} BranchesAreAllowed(ord: Order, schema: Value, value: Value, site: Site, i: nat) returns (j: int)
    requires schema.Object? && IsOrder(ord)
    requires Get(schema.fields, "anyOf").List? && i <= |Get(schema.fields, "anyOf").items|
    requires forall k :: 0 <= k < i && Get(schema.fields, "anyOf").items[k].Object? ==>
               Can(Get(schema.fields, "anyOf").items[k], value, Rejected)
    ensures BranchDecides(schema, value, j, TryBranches(ord, schema, value, site, i))
    decreases schema, 2, |Get(schema.fields, "anyOf").items| - i
  {
    var branches := Get(schema.fields, "anyOf").items;
    j := i;
    if i < |branches| {
      if branches[i].Object? {
        RunIsAllowed(ord, branches[i], value, site + [Branch(i)]);
      }
      if !branches[i].Object? || Validate(ord, branches[i], value, site + [Branch(i)]).Rejected? {
        j := BranchesAreAllowed(ord, schema, value, site, i + 1);
      }
    }
  }

  lemma {:induction false} TypeIsAllowed(ord: Order, schema: Value, value: Value, site: Site)
    requires schema.Object? && IsOrder(ord)
    ensures CanType(schema, value, CheckType(ord, schema, value, site))
    decreases schema, 3, 0
  {
    match KindOf(schema.fields)
    case ObjectKind =>
      if value.Object? {
        var keys := ord(site, value.fields.Keys);
        var j := PropertiesAreAllowed(ord, schema, value, site, keys, 0);
        forall k | k in value.fields
          ensures exists j :: 0 <= j < |keys| && keys[j] == k
        {
          assert k in keys;
        }
      }
    case ArrayKind =>
      if value.List? && Get(schema.fields, "items").Object? {
        var j := ItemsAreAllowed(ord, Get(schema.fields, "items"), value.items, site, 0);
      }
    case _ =>
  }

  /** The property with this key is checked and can end in `o`. */
  ghost predicate PropertyCan(schema: Value, value: Value, k: string, o: Outcome)
    requires schema.Object? && value.Object?
  {
    Checked(schema, value, k) && Can(Get(Properties(schema.fields), k), value.fields[k], o)
  }

  predicate Checked(schema: Value, value: Value, k: string)
    requires schema.Object? && value.Object?
  {
    k in value.fields && Get(Properties(schema.fields), k).Object?
  }

  lemma {:induction false} PropertiesAreAllowed(ord: Order, schema: Value, value: Value, site: Site, keys: seq<string>, i: nat)
      returns (j: int)
    requires schema.Object? && IsOrder(ord) && value.Object? && i <= |keys|
    ensures var o := CheckProperties(ord, schema, value, site, keys, i);
            if o == Accepted
            then forall k :: i <= k < |keys| && Checked(schema, value, keys[k]) ==> PropertyCan(schema, value, keys[k], Accepted)
            else i <= j < |keys| && PropertyCan(schema, value, keys[j], o)
    decreases schema, 2, |keys| - i
  {
    j := i;
    if i < |keys| {
      if Checked(schema, value, keys[i]) {
        RunIsAllowed(ord, Get(Properties(schema.fields), keys[i]), value.fields[keys[i]], site + [Property(keys[i])]);
      }
      var rest := PropertiesAreAllowed(ord, schema, value, site, keys, i + 1);
      if !Checked(schema, value, keys[i]) ||
         Validate(ord, Get(Properties(schema.fields), keys[i]), value.fields[keys[i]], site + [Property(keys[i])]).Accepted? {
        j := rest;
      }
    }
  }

  lemma {:induction false} ItemsAreAllowed(ord: Order, items: Value, values: seq<Value>, site: Site, i: nat) returns (j: int)
    requires items.Object? && IsOrder(ord) && i <= |values|
    requires forall k :: 0 <= k < i ==> Can(items, values[k], Accepted)
    ensures ItemDecides(items, values, j, CheckItems(ord, items, values, site, i))
    decreases items, 5, |values| - i
  {
    j := i;
    if i < |values| {
      RunIsAllowed(ord, items, values[i], site + [Item(i)]);
      if Validate(ord, items, values[i], site + [Item(i)]).Accepted? {
        j := ItemsAreAllowed(ord, items, values, site, i + 1);
      }
    }
  }

  // ----- A run asks the order about places below its own only

  ghost predicate AgreeBelow(a: Order, b: Order, site: Site) {
    forall s, keys :: site <= s ==> a(s, keys) == b(s, keys)
  }

  ghost predicate AgreeAfter(a: Order, b: Order, site: Site, step: Step) {
    AgreeBelow(a, b, site + [step])
  }

  lemma AgreeDeeper(a: Order, b: Order, site: Site, step: Step)
    requires AgreeBelow(a, b, site)
    ensures AgreeAfter(a, b, site, step)
  {
    forall s: Site, keys | site + [step] <= s
      ensures a(s, keys) == b(s, keys)
    {
      assert site <= site + [step];
    }
  }

  lemma {:induction false} SameRun(a: Order, b: Order, schema: Value, value: Value, site: Site)
    requires schema.Object? && AgreeBelow(a, b, site)
    ensures Validate(a, schema, value, site) == Validate(b, schema, value, site)
    decreases schema, 4, 0
  {
    forall step
      ensures AgreeAfter(a, b, site, step)
    {
      AgreeDeeper(a, b, site, step);
    }
    SameAnyOf(a, b, schema, value, site);
    SameType(a, b, schema, value, site);
  }

  lemma {:induction false} SameAnyOf(a: Order, b: Order, schema: Value, value: Value, site: Site)
    requires schema.Object? && forall i :: AgreeAfter(a, b, site, Branch(i))
    ensures CheckAnyOf(a, schema, value, site) == CheckAnyOf(b, schema, value, site)
    decreases schema, 3, 0
  {
    var branches := Get(schema.fields, "anyOf");
    if branches.List? {
      match SelectBranch(branches.items, value)
      case Some(i) =>
        assert AgreeAfter(a, b, site, Branch(i));
        SameRun(a, b, branches.items[i], value, site + [Branch(i)]);
      case None => SameTry(a, b, schema, value, site, 0);
    }
  }

  lemma {:induction false} SameTry(a: Order, b: Order, schema: Value, value: Value, site: Site, i: nat)
    requires schema.Object? && forall k :: AgreeAfter(a, b, site, Branch(k))
    requires Get(schema.fields, "anyOf").List? && i <= |Get(schema.fields, "anyOf").items|
    ensures TryBranches(a, schema, value, site, i) == TryBranches(b, schema, value, site, i)
    decreases schema, 2, |Get(schema.fields, "anyOf").items| - i
  {
    var branches := Get(schema.fields, "anyOf").items;
    if i < |branches| {
      if branches[i].Object? {
        assert AgreeAfter(a, b, site, Branch(i));
        SameRun(a, b, branches[i], value, site + [Branch(i)]);
      }
      SameTry(a, b, schema, value, site, i + 1);
    }
  }

  /** Two orders agree where the check of `type` asks them. */
  ghost predicate AgreeOnType(a: Order, b: Order, site: Site) {
    && (forall keys :: a(site, keys) == b(site, keys))
    && (forall k :: AgreeAfter(a, b, site, Property(k)))
    && (forall i :: AgreeAfter(a, b, site, Item(i)))
  }

  lemma {:induction false} SameType(a: Order, b: Order, schema: Value, value: Value, site: Site)
    requires schema.Object? && AgreeOnType(a, b, site)
    ensures CheckType(a, schema, value, site) == CheckType(b, schema, value, site)
    decreases schema, 3, 0
  {
    match KindOf(schema.fields)
    case ObjectKind =>
      if value.Object? {
        assert a(site, value.fields.Keys) == b(site, value.fields.Keys);
        SameProperties(a, b, schema, value, site, a(site, value.fields.Keys), 0);
      }
    case ArrayKind =>
      if value.List? && Get(schema.fields, "items").Object? {
        SameItems(a, b, Get(schema.fields, "items"), value.items, site, 0);
      }
    case _ =>
  }

  lemma {:induction false} SameProperties(a: Order, b: Order, schema: Value, value: Value, site: Site, keys: seq<string>, i: nat)
    requires schema.Object? && value.Object? && i <= |keys| && AgreeOnType(a, b, site)
    ensures CheckProperties(a, schema, value, site, keys, i) == CheckProperties(b, schema, value, site, keys, i)
    decreases schema, 2, |keys| - i
  {
    if i < |keys| {
      var property := Get(Properties(schema.fields), keys[i]);
      if keys[i] in value.fields && property.Object? {
        assert AgreeAfter(a, b, site, Property(keys[i]));
        SameRun(a, b, property, value.fields[keys[i]], site + [Property(keys[i])]);
      }
      SameProperties(a, b, schema, value, site, keys, i + 1);
    }
  }

  lemma {:induction false} SameItems(a: Order, b: Order, items: Value, values: seq<Value>, site: Site, i: nat)
    requires items.Object? && i <= |values| && AgreeOnType(a, b, site)
    ensures CheckItems(a, items, values, site, i) == CheckItems(b, items, values, site, i)
    decreases items, 5, |values| - i
  {
    if i < |values| {
      assert AgreeAfter(a, b, site, Item(i));
      SameRun(a, b, items, values[i], site + [Item(i)]);
      SameItems(a, b, items, values, site, i + 1);
    }
  }

  // ----- Every allowed outcome is brought about by some order

  ghost function Listing(keys: set<string>): (r: seq<string>)
    ensures forall k :: k in r <==> k in keys
  {
    if keys == {} then []
    else
      var k :| k in keys;
      [k] + Listing(keys - {k})
  }

  ghost function SomeOrder(): (ord: Order)
    ensures IsOrder(ord)
  {
    (site: Site, keys: set<string>) => Listing(keys)
  }

  /** Orders that visit `k` before every other key. */
  ghost function FirstVisiting(k: string): (ord: Order)
    ensures IsOrder(ord)
    ensures forall site, keys :: k in keys ==> ord(site, keys) != [] && ord(site, keys)[0] == k
  {
    (site: Site, keys: set<string>) => if k in keys then [k] + Listing(keys - {k}) else Listing(keys)
  }

  ghost predicate AreOrders(sub: Step -> Order) {
    forall step :: IsOrder(sub(step))
  }

  /** Below `site` follows the order that `sub` gives for the next step, and `top`
      elsewhere. */
  ghost function Joined(site: Site, top: Order, sub: Step -> Order): (ord: Order)
    requires IsOrder(top) && AreOrders(sub)
    ensures IsOrder(ord)
    ensures forall keys :: ord(site, keys) == top(site, keys)
    ensures forall step :: AgreeAfter(ord, sub(step), site, step)
  {
    var ord := (s: Site, keys: set<string>) =>
      if |site| < |s| && site <= s then sub(s[|site|])(s, keys) else top(s, keys);
    assert IsOrder(ord) by {
      forall s, keys, k
        ensures k in ord(s, keys) <==> k in keys
      {
        if |site| < |s| && site <= s {
          assert IsOrder(sub(s[|site|])) && ord(s, keys) == sub(s[|site|])(s, keys);
        } else {
          assert ord(s, keys) == top(s, keys);
        }
      }
    }
    assert forall step :: AgreeAfter(ord, sub(step), site, step) by {
      forall step, s: Site, keys | site + [step] <= s
        ensures ord(s, keys) == sub(step)(s, keys)
      {
        assert site <= s && s[|site|] == (site + [step])[|site|];
      }
    }
    ord
  }

  /** Some order ends in `o` at this place. */
  ghost predicate Reaches(schema: Value, value: Value, o: Outcome, site: Site)
    requires schema.Object?
  {
    exists ord: Order :: IsOrder(ord) && Validate(ord, schema, value, site) == o
  }

  ghost function Pick(schema: Value, value: Value, o: Outcome, site: Site): (ord: Order)
    requires schema.Object?
    ensures IsOrder(ord)
    ensures Reaches(schema, value, o, site) ==> Validate(ord, schema, value, site) == o
  {
    if Reaches(schema, value, o, site) then
      var ord: Order :| IsOrder(ord) && Validate(ord, schema, value, site) == o;
      ord
    else SomeOrder()
  }

  /** An order under which the step's run is the one that `Pick` chose. */
  lemma FollowsPick(ord: Order, schema: Value, value: Value, o: Outcome, site: Site, step: Step)
    requires schema.Object? && Reaches(schema, value, o, site + [step])
    requires AgreeAfter(ord, Pick(schema, value, o, site + [step]), site, step)
    ensures Validate(ord, schema, value, site + [step]) == o
  {
    SameRun(ord, Pick(schema, value, o, site + [step]), schema, value, site + [step]);
  }

  lemma {:induction false} AllowedIsReached(schema: Value, value: Value, o: Outcome, site: Site)
    requires schema.Object? && Can(schema, value, o)
    ensures Reaches(schema, value, o, site)
    decreases schema, 4
  {
    if !EnumOutcome(schema, value).Accepted? {
      assert Validate(SomeOrder(), schema, value, site) == o;
    } else if o != Accepted && CanAnyOf(schema, value, o) {
      var ord := AnyOfIsReached(schema, value, o, site);
      assert Validate(ord, schema, value, site) == o;
    } else {
      var a := AnyOfIsReached(schema, value, Accepted, site);
      var t := TypeIsReached(schema, value, o, site);
      var sub := (step: Step) => if step.Branch? then a else t;
      var ord := Joined(site, t, sub);
      forall step: Step
        ensures AgreeAfter(ord, if step.Branch? then a else t, site, step)
      {
        assert sub(step) == if step.Branch? then a else t;
      }
      SameAnyOf(ord, a, schema, value, site);
      SameType(ord, t, schema, value, site);
      assert Validate(ord, schema, value, site) == o;
    }
  }

  lemma {:induction false} AnyOfIsReached(schema: Value, value: Value, o: Outcome, site: Site) returns (ord: Order)
    requires schema.Object? && CanAnyOf(schema, value, o)
    ensures IsOrder(ord) && CheckAnyOf(ord, schema, value, site) == o
    decreases schema, 3
  {
    var branches := Get(schema.fields, "anyOf");
    ord := SomeOrder();
    if branches.List? {
      match SelectBranch(branches.items, value)
      case Some(i) =>
        AllowedIsReached(branches.items[i], value, o, site + [Branch(i)]);
        ord := Pick(branches.items[i], value, o, site + [Branch(i)]);
      case None =>
        var j :| BranchDecides(schema, value, j, o);
        ord := BranchesAreReached(schema, value, j, o, site);
    }
  }

  lemma {:induction false} BranchesAreReached(schema: Value, value: Value, j: int, o: Outcome, site: Site) returns (ord: Order)
    requires schema.Object? && Get(schema.fields, "anyOf").List? && BranchDecides(schema, value, j, o)
    ensures IsOrder(ord) && TryBranches(ord, schema, value, site, 0) == o
    decreases schema, 2
  {
    var branches := Get(schema.fields, "anyOf").items;
    var sub := (step: Step) =>
      if step.Branch? && step.branch < |branches| && branches[step.branch].Object?
      then Pick(branches[step.branch], value, if step.branch < j then Rejected else o, site + [step])
      else SomeOrder();
    ord := Joined(site, SomeOrder(), sub);
    forall k | 0 <= k <= j && k < |branches| && branches[k].Object?
      ensures Validate(ord, branches[k], value, site + [Branch(k)]) == if k < j then Rejected else o
    {
      AllowedIsReached(branches[k], value, if k < j then Rejected else o, site + [Branch(k)]);
      assert AgreeAfter(ord, sub(Branch(k)), site, Branch(k));
      FollowsPick(ord, branches[k], value, if k < j then Rejected else o, site, Branch(k));
    }
    TryStopsAt(ord, schema, value, site, 0, j, o);
  }

  lemma {:induction false} TryStopsAt(ord: Order, schema: Value, value: Value, site: Site, i: nat, j: nat, o: Outcome)
    requires schema.Object? && Get(schema.fields, "anyOf").List? && i <= j <= |Get(schema.fields, "anyOf").items|
    requires var branches := Get(schema.fields, "anyOf").items;
             && (forall k :: i <= k < j && branches[k].Object? ==>
                   Validate(ord, branches[k], value, site + [Branch(k)]) == Rejected)
             && (if j == |branches| then o == Rejected
                 else branches[j].Object? && o != Rejected && Validate(ord, branches[j], value, site + [Branch(j)]) == o)
    ensures TryBranches(ord, schema, value, site, i) == o
    decreases j - i
  {
    if i < j {
      TryStopsAt(ord, schema, value, site, i + 1, j, o);
    }
  }

  lemma {:induction false} TypeIsReached(schema: Value, value: Value, o: Outcome, site: Site) returns (ord: Order)
    requires schema.Object? && CanType(schema, value, o)
    ensures IsOrder(ord) && CheckType(ord, schema, value, site) == o
    decreases schema, 3
  {
    ord := SomeOrder();
    match KindOf(schema.fields)
    case ObjectKind =>
      if value.Object? && RequiredPresent(Get(schema.fields, "required"), value.fields) && NoneUnknown(schema.fields, value.fields) {
        if o == Accepted {
          ord := AllPropertiesReached(schema, value, site);
        } else {
          var k :| k in value.fields && Get(Properties(schema.fields), k).Object? &&
            Can(Get(Properties(schema.fields), k), value.fields[k], o);
          ord := OnePropertyReached(schema, value, k, o, site);
        }
      }
    case ArrayKind =>
      var items := Get(schema.fields, "items");
      if value.List? && InLimits(schema.fields, "minItems", "maxItems", |value.items| as real) && items.Object? {
        var j :| ItemDecides(items, value.items, j, o);
        ord := ItemsAreReached(items, value.items, j, o, site);
      }
    case _ =>
  }

  /** A property that is visited first decides, if it is not accepted. */
  lemma {:induction false} OnePropertyReached(schema: Value, value: Value, k: string, o: Outcome, site: Site) returns (ord: Order)
    requires schema.Object? && value.Object? && PropertyCan(schema, value, k, o) && o != Accepted
    ensures IsOrder(ord) && CheckProperties(ord, schema, value, site, ord(site, value.fields.Keys), 0) == o
    decreases schema, 2
  {
    var property := Get(Properties(schema.fields), k);
    AllowedIsReached(property, value.fields[k], o, site + [Property(k)]);
    var sub := (step: Step) => Pick(property, value.fields[k], o, site + [Property(k)]);
    ord := Joined(site, FirstVisiting(k), sub);
    assert AgreeAfter(ord, sub(Property(k)), site, Property(k));
    FollowsPick(ord, property, value.fields[k], o, site, Property(k));
  }

  lemma {:induction false} AllPropertiesReached(schema: Value, value: Value, site: Site) returns (ord: Order)
    requires schema.Object? && value.Object?
    requires forall k :: Checked(schema, value, k) ==> PropertyCan(schema, value, k, Accepted)
    ensures IsOrder(ord) && CheckProperties(ord, schema, value, site, ord(site, value.fields.Keys), 0) == Accepted
    decreases schema, 2
  {
    var properties := Properties(schema.fields);
    var sub := (step: Step) =>
      if step.Property? && Checked(schema, value, step.key)
      then Pick(Get(properties, step.key), value.fields[step.key], Accepted, site + [step])
      else SomeOrder();
    ord := Joined(site, SomeOrder(), sub);
    forall k | Checked(schema, value, k)
      ensures Validate(ord, Get(properties, k), value.fields[k], site + [Property(k)]) == Accepted
    {
      assert PropertyCan(schema, value, k, Accepted);
      AllowedIsReached(Get(properties, k), value.fields[k], Accepted, site + [Property(k)]);
      assert AgreeAfter(ord, sub(Property(k)), site, Property(k));
      FollowsPick(ord, Get(properties, k), value.fields[k], Accepted, site, Property(k));
    }
    PropertiesAccepted(ord, schema, value, site, ord(site, value.fields.Keys), 0);
  }

  lemma {:induction false} PropertiesAccepted(ord: Order, schema: Value, value: Value, site: Site, keys: seq<string>, i: nat)
    requires schema.Object? && value.Object? && i <= |keys|
    requires forall k :: Checked(schema, value, k) ==>
               Validate(ord, Get(Properties(schema.fields), k), value.fields[k], site + [Property(k)]) == Accepted
    ensures CheckProperties(ord, schema, value, site, keys, i) == Accepted
    decreases |keys| - i
  {
    if i < |keys| {
      assert Checked(schema, value, keys[i]) <==> keys[i] in value.fields && Get(Properties(schema.fields), keys[i]).Object?;
      PropertiesAccepted(ord, schema, value, site, keys, i + 1);
    }
  }

  lemma {:induction false} ItemsAreReached(items: Value, values: seq<Value>, j: int, o: Outcome, site: Site) returns (ord: Order)
    requires items.Object? && ItemDecides(items, values, j, o)
    ensures IsOrder(ord) && CheckItems(ord, items, values, site, 0) == o
    decreases items, 5
  {
    var sub := (step: Step) =>
      if step.Item? && step.index < |values|
      then Pick(items, values[step.index], if step.index < j then Accepted else o, site + [step])
      else SomeOrder();
    ord := Joined(site, SomeOrder(), sub);
    forall k | 0 <= k <= j && k < |values|
      ensures Validate(ord, items, values[k], site + [Item(k)]) == if k < j then Accepted else o
    {
      AllowedIsReached(items, values[k], if k < j then Accepted else o, site + [Item(k)]);
      assert AgreeAfter(ord, sub(Item(k)), site, Item(k));
      FollowsPick(ord, items, values[k], if k < j then Accepted else o, site, Item(k));
    }
    ItemsStopAt(ord, items, values, site, 0, j, o);
  }

  lemma {:induction false} ItemsStopAt(ord: Order, items: Value, values: seq<Value>, site: Site, i: nat, j: nat, o: Outcome)
    requires items.Object? && i <= j <= |values|
    requires forall k :: i <= k < j ==> Validate(ord, items, values[k], site + [Item(k)]) == Accepted
    requires if j == |values| then o == Accepted else o != Accepted && Validate(ord, items, values[j], site + [Item(j)]) == o
    ensures CheckItems(ord, items, values, site, i) == o
    decreases j - i
  {
    if i < j {
      ItemsStopAt(ord, items, values, site, i + 1, j, o);
    }
  }

  // ----- The exact conditions

  /** Some order ends in an outcome exactly when the recursion over schema and value
      allows it. */
  lemma OutcomeIff(schema: Value, value: Value, o: Outcome)
    requires schema.Object?
    ensures (exists ord: Order :: IsOrder(ord) && Validate(ord, schema, value, []) == o) <==> Can(schema, value, o)
  {
    if ord: Order :| IsOrder(ord) && Validate(ord, schema, value, []) == o {
      RunIsAllowed(ord, schema, value, []);
    }
    if Can(schema, value, o) {
      AllowedIsReached(schema, value, o, []);
    }
  }

  /** The outcome depends on the order exactly when a panic and a verdict are both
      allowed. */
  lemma OrderMattersIff(schema: Value, value: Value)
    requires schema.Object?
    ensures (exists a: Order, b: Order :: IsOrder(a) && IsOrder(b) && Validate(a, schema, value, []) != Validate(b, schema, value, []))
            <==> MayPanic(schema, value) && MayFinish(schema, value)
  {
    if a: Order, b: Order :| IsOrder(a) && IsOrder(b) && Validate(a, schema, value, []) != Validate(b, schema, value, []) {
      ValidateDecides(a, schema, value, []);
      ValidateDecides(b, schema, value, []);
      RunIsAllowed(a, schema, value, []);
      RunIsAllowed(b, schema, value, []);
    }
    if MayPanic(schema, value) && MayFinish(schema, value) {
      OutcomeIff(schema, value, Panicked);
      OutcomeIff(schema, value, Check(Accepts(false, schema, value)));
      var a: Order :| IsOrder(a) && Validate(a, schema, value, []) == Panicked;
      var b: Order :| IsOrder(b) && Validate(b, schema, value, []) == Check(Accepts(false, schema, value));
      assert Validate(a, schema, value, []) != Validate(b, schema, value, []);
    }
  }

  /** Without the condition on enums the verdict can depend on the order: the same
      input is rejected in one order and panics in another. */
  lemma PanicDependsOnOrder() returns (schema: Value, value: Value, first: Order, second: Order)
    ensures schema.Object? && IsOrder(first) && IsOrder(second)
    ensures Validate(first, schema, value, []) == Panicked
    ensures Validate(second, schema, value, []) == Rejected
  {
    var lists := Object(map["enum" := List([List([])])]);
    var text := Object(map["type" := Str("string")]);
    var properties := map["a" := lists, "b" := text];
    schema := Object(map["type" := Str("object"), "properties" := Object(properties)]);
    value := Object(map["a" := List([]), "b" := Nil]);
    first, second := FirstVisiting("a"), FirstVisiting("b");
    assert CheckEnum([List([])], List([]), 0) == Panicked;
    assert Validate(first, lists, List([]), [Property("a")]) == Panicked;
    assert KindOf(text.fields) == StringKind;
    assert Validate(second, text, Nil, [Property("b")]) == Rejected;
    assert KindOf(schema.fields) == ObjectKind && Properties(schema.fields) == properties;
    var a, b := first([], value.fields.Keys), second([], value.fields.Keys);
    assert a[0] == "a" && b[0] == "b";
    assert [] + [Property("a")] == [Property("a")] && [] + [Property("b")] == [Property("b")];
    assert CheckProperties(first, schema, value, [], a, 0) == Panicked;
    assert CheckProperties(second, schema, value, [], b, 0) == Rejected;
    assert CheckType(first, schema, value, []) == Panicked;
    assert CheckType(second, schema, value, []) == Rejected;
  }

  // ----- Scalar enums

  /** A schema whose enums list scalars only never panics. */
  lemma {:induction false} ScalarEnumsNeverPanic(schema: Value, value: Value)
    requires schema.Object? && ScalarEnums(schema)
    ensures !MayPanic(schema, value)
    decreases schema, 1
  {
    var enum := Get(schema.fields, "enum");
    if enum.List? {
      EnumPanicsIff(enum.items, value, 0);
    }
    ScalarAnyOfNeverPanics(schema, value);
    ScalarTypeNeverPanics(schema, value);
  }

  lemma {:induction false} ScalarAnyOfNeverPanics(schema: Value, value: Value)
    requires schema.Object? && ScalarEnums(schema)
    ensures !CanAnyOf(schema, value, Panicked)
    decreases schema, 0
  {
    var branches := Get(schema.fields, "anyOf");
    if branches.List? {
      forall i | 0 <= i < |branches.items| && branches.items[i].Object?
        ensures !Can(branches.items[i], value, Panicked)
      {
        ScalarEnumsNeverPanic(branches.items[i], value);
      }
      forall j
        ensures !BranchDecides(schema, value, j, Panicked)
      {
      }
    }
  }

  lemma {:induction false} ScalarTypeNeverPanics(schema: Value, value: Value)
    requires schema.Object? && ScalarEnums(schema)
    ensures !CanType(schema, value, Panicked)
    decreases schema, 0
  {
    match KindOf(schema.fields)
    case ObjectKind =>
      if value.Object? {
        forall k | Checked(schema, value, k)
          ensures !Can(Get(Properties(schema.fields), k), value.fields[k], Panicked)
        {
          ScalarEnumsNeverPanic(Get(Properties(schema.fields), k), value.fields[k]);
        }
      }
    case ArrayKind =>
      var items := Get(schema.fields, "items");
      if value.List? && items.Object? {
        forall i | 0 <= i < |value.items|
          ensures !Can(items, value.items[i], Panicked)
        {
          ScalarEnumsNeverPanic(items, value.items[i]);
        }
      }
    case _ =>
  }

  /** With scalar enums every order gives the meaning of the schema. */
  lemma OrderDoesNotMatter(ord: Order, schema: Value, value: Value)
    requires schema.Object? && ScalarEnums(schema) && IsOrder(ord)
    ensures Validate(ord, schema, value, []) == Check(Accepts(false, schema, value))
  {
    ValidateDecides(ord, schema, value, []);
    RunIsAllowed(ord, schema, value, []);
    ScalarEnumsNeverPanic(schema, value);
  }

  // ----- The Go type of a number does not matter for any outcome

  lemma SameCompare(l: Value, m: Value, v: Value, w: Value)
    requires SameJson(l, m) && SameJson(v, w)
    ensures Compare(l, v) == Compare(m, w)
  {
  }

  lemma {:induction false} SameCheckEnum(a: seq<Value>, b: seq<Value>, v: Value, w: Value, i: nat)
    requires |a| == |b| && i <= |a| && (forall j :: 0 <= j < |a| ==> SameJson(a[j], b[j])) && SameJson(v, w)
    ensures CheckEnum(a, v, i) == CheckEnum(b, w, i)
    decreases |a| - i
  {
    if i < |a| {
      SameCompare(a[i], b[i], v, w);
      SameCheckEnum(a, b, v, w, i + 1);
    }
  }

  lemma SameEnumOutcome(a: Value, b: Value, v: Value, w: Value)
    requires a.Object? && b.Object? && SameJson(a, b) && SameJson(v, w)
    ensures EnumOutcome(a, v) == EnumOutcome(b, w)
  {
    SameGet(a.fields, b.fields, "enum");
    if Get(a.fields, "enum").List? {
      SameCheckEnum(Get(a.fields, "enum").items, Get(b.fields, "enum").items, v, w, 0);
    }
  }

  lemma {:induction false} SameCan(a: Value, b: Value, v: Value, w: Value, o: Outcome)
    requires a.Object? && b.Object? && SameJson(a, b) && SameJson(v, w) && Can(a, v, o)
    ensures Can(b, w, o)
    decreases a, 1
  {
    SameEnumOutcome(a, b, v, w);
    if EnumOutcome(a, v).Accepted? {
      if o != Accepted && CanAnyOf(a, v, o) {
        SameCanAnyOf(a, b, v, w, o);
      } else {
        SameCanAnyOf(a, b, v, w, Accepted);
        SameCanType(a, b, v, w, o);
      }
    }
  }

  lemma {:induction false} SameCanAnyOf(a: Value, b: Value, v: Value, w: Value, o: Outcome)
    requires a.Object? && b.Object? && SameJson(a, b) && SameJson(v, w) && CanAnyOf(a, v, o)
    ensures CanAnyOf(b, w, o)
    decreases a, 0, 1
  {
    SameGet(a.fields, b.fields, "anyOf");
    var ba, bb := Get(a.fields, "anyOf"), Get(b.fields, "anyOf");
    if ba.List? {
      SameBranch(ba.items, bb.items, v, w);
      match SelectBranch(ba.items, v)
      case Some(i) =>
        assert SameJson(ba.items[i], bb.items[i]);
        SameCan(ba.items[i], bb.items[i], v, w, o);
      case None =>
        var j :| BranchDecides(a, v, j, o);
        SameBranchDecides(a, b, v, w, j, o);
    }
  }

  lemma {:induction false} SameBranchDecides(a: Value, b: Value, v: Value, w: Value, j: int, o: Outcome)
    requires a.Object? && b.Object? && SameJson(a, b) && SameJson(v, w)
    requires Get(a.fields, "anyOf").List? && Get(b.fields, "anyOf").List?
    requires SameJson(Get(a.fields, "anyOf"), Get(b.fields, "anyOf")) && BranchDecides(a, v, j, o)
    ensures BranchDecides(b, w, j, o)
    decreases a, 0, 0
  {
    var ba, bb := Get(a.fields, "anyOf").items, Get(b.fields, "anyOf").items;
    forall k | 0 <= k <= j && k < |ba| && bb[k].Object?
      ensures Can(bb[k], w, if k < j then Rejected else o)
    {
      assert SameJson(ba[k], bb[k]);
      SameCan(ba[k], bb[k], v, w, if k < j then Rejected else o);
    }
    assert j < |ba| ==> SameJson(ba[j], bb[j]);
  }

  lemma SameFieldsSymmetric(a: Fields, b: Fields)
    requires SameFields(a, b)
    ensures SameFields(b, a)
  {
    forall k | k in b
      ensures SameJson(b[k], a[k])
    {
      SameJsonSymmetric(a[k], b[k]);
    }
  }

  lemma SameObjectShape(a: Fields, b: Fields, v: Fields, w: Fields)
    requires SameFields(a, b) && SameFields(v, w)
    ensures RequiredPresent(Get(a, "required"), v) <==> RequiredPresent(Get(b, "required"), w)
    ensures NoneUnknown(a, v) <==> NoneUnknown(b, w)
  {
    SameFieldsSymmetric(a, b);
    SameFieldsSymmetric(v, w);
    if RequiredPresent(Get(a, "required"), v) {
      SameRequired(a, b, v, w);
    }
    if RequiredPresent(Get(b, "required"), w) {
      SameRequired(b, a, w, v);
    }
    if NoneUnknown(a, v) {
      SameClosed(a, b, v, w);
    }
    if NoneUnknown(b, w) {
      SameClosed(b, a, w, v);
    }
  }

  lemma SameProperty(a: Value, b: Value, v: Value, w: Value, k: string)
    requires a.Object? && b.Object? && SameJson(a, b) && v.Object? && w.Object? && SameJson(v, w)
    ensures SameJson(Get(Properties(a.fields), k), Get(Properties(b.fields), k))
    ensures Checked(a, v, k) <==> Checked(b, w, k)
  {
    SameGet(a.fields, b.fields, "properties");
    SameGet(Properties(a.fields), Properties(b.fields), k);
  }

  lemma {:induction false} SameCanProperties(a: Value, b: Value, v: Value, w: Value, o: Outcome)
    requires a.Object? && b.Object? && SameJson(a, b) && v.Object? && w.Object? && SameJson(v, w)
    requires KindOf(a.fields).ObjectKind? && KindOf(b.fields).ObjectKind? && CanType(a, v, o)
    ensures CanType(b, w, o)
    decreases a, 0, 0
  {
    SameObjectShape(a.fields, b.fields, v.fields, w.fields);
    forall k | Checked(b, w, k)
      ensures PropertyCan(a, v, k, o) ==> PropertyCan(b, w, k, o)
    {
      SameProperty(a, b, v, w, k);
      if PropertyCan(a, v, k, o) {
        SameCan(Get(Properties(a.fields), k), Get(Properties(b.fields), k), v.fields[k], w.fields[k], o);
      }
    }
    forall k
      ensures Checked(a, v, k) <==> Checked(b, w, k)
    {
      SameProperty(a, b, v, w, k);
    }
    if RequiredPresent(Get(a.fields, "required"), v.fields) && NoneUnknown(a.fields, v.fields) {
      if o == Accepted {
        forall k | Checked(b, w, k)
          ensures Can(Get(Properties(b.fields), k), w.fields[k], Accepted)
        {
          assert PropertyCan(a, v, k, o) && PropertyCan(b, w, k, o);
        }
      } else {
        var k :| k in v.fields && Get(Properties(a.fields), k).Object? && Can(Get(Properties(a.fields), k), v.fields[k], o);
        assert PropertyCan(a, v, k, o) && PropertyCan(b, w, k, o);
      }
    }
  }

  lemma {:induction false} SameCanItems(a: Value, b: Value, v: seq<Value>, w: seq<Value>, j: int, o: Outcome)
    requires a.Object? && b.Object? && SameJson(a, b) && |v| == |w| && forall i :: 0 <= i < |v| ==> SameJson(v[i], w[i])
    requires ItemDecides(a, v, j, o)
    ensures ItemDecides(b, w, j, o)
    decreases a, 2
  {
    forall k | 0 <= k <= j && k < |v|
      ensures Can(b, w[k], if k < j then Accepted else o)
    {
      SameCan(a, b, v[k], w[k], if k < j then Accepted else o);
    }
  }

  lemma {:induction false} SameCanType(a: Value, b: Value, v: Value, w: Value, o: Outcome)
    requires a.Object? && b.Object? && SameJson(a, b) && SameJson(v, w) && CanType(a, v, o)
    ensures CanType(b, w, o)
    decreases a, 0, 1
  {
    SameKind(a.fields, b.fields);
    match KindOf(a.fields)
    case ObjectKind =>
      if v.Object? {
        SameCanProperties(a, b, v, w, o);
      }
    case ArrayKind =>
      if v.List? {
        SameCanArray(a, b, v, w, o);
      }
    case _ =>
      SameVerdictOnType(a, b, v, w);
  }

  lemma {:induction false} SameCanArray(a: Value, b: Value, v: Value, w: Value, o: Outcome)
    requires a.Object? && b.Object? && SameJson(a, b) && v.List? && w.List? && SameJson(v, w)
    requires KindOf(a.fields).ArrayKind? && KindOf(b.fields).ArrayKind? && CanType(a, v, o)
    ensures CanType(b, w, o)
    decreases a, 0, 0
  {
    SameGet(a.fields, b.fields, "items");
    SameLimits(a.fields, b.fields, "minItems", "maxItems", |v.items| as real);
    if InLimits(a.fields, "minItems", "maxItems", |v.items| as real) && Get(a.fields, "items").Object? {
      var j :| ItemDecides(Get(a.fields, "items"), v.items, j, o);
      SameCanItems(Get(a.fields, "items"), Get(b.fields, "items"), v.items, w.items, j, o);
    }
  }

  lemma SameVerdictOnType(a: Value, b: Value, v: Value, w: Value)
    requires a.Object? && b.Object? && SameJson(a, b) && SameJson(v, w)
    ensures AcceptsType(false, a, v) <==> AcceptsType(false, b, w)
  {
    if AcceptsType(false, a, v) {
      SameAcceptsType(false, a, b, v, w);
    }
    if AcceptsType(false, b, w) {
      SameJsonSymmetric(a, b);
      SameJsonSymmetric(v, w);
      SameAcceptsType(false, b, a, w, v);
    }
  }

  lemma SameAllowed(a: Value, b: Value, v: Value, w: Value, o: Outcome)
    requires a.Object? && b.Object? && SameJson(a, b) && SameJson(v, w)
    ensures Can(a, v, o) <==> Can(b, w, o)
  {
    if Can(a, v, o) {
      SameCan(a, b, v, w, o);
    }
    if Can(b, w, o) {
      SameJsonSymmetric(a, b);
      SameJsonSymmetric(v, w);
      SameCan(b, a, w, v, o);
    }
  }

  /** The agent's check and the server's check of the same arguments allow the same
      outcomes, panics included: what one can end in under some order, so can the
      other. */
  lemma AgentAndServerAllowTheSame(received: Value, written: Value, arguments: Value, again: Value, o: Outcome)
    requires received.Object? && written.Object? && SameJson(written, received) && SameJson(arguments, again)
    ensures Reaches(received, again, o, []) <==> Reaches(written, arguments, o, [])
  {
    OutcomeIff(received, again, o);
    OutcomeIff(written, arguments, o);
    SameAllowed(written, received, arguments, again, o);
  }

  /** With scalar enums both checks return, and with the same verdict. */
  lemma AgentAndServerAlwaysAgree(agent: Order, server: Order, received: Value, written: Value, arguments: Value, again: Value)
    requires received.Object? && written.Object? && SameJson(written, received) && SameJson(arguments, again)
    requires IsOrder(agent) && IsOrder(server) && ScalarEnums(written)
    ensures Validate(agent, received, again, []) == Validate(server, written, arguments, []) != Panicked
  {
    SameScalarEnums(written, received);
    OrderDoesNotMatter(agent, received, again);
    OrderDoesNotMatter(server, written, arguments);
    AgentAndServerAgree(agent, server, received, written, arguments, again);
  }
}
