/**
 * What the compiler promises: the dispatch order of `resolve`, the rule each
 * schema type yields, property resolution with required marking, bounds
 * attached only from numeric keywords, and that fuel only bounds `$ref` chains.
 */
module EnjoiLemmas {
  import opened Wrappers
  import opened Json
  import opened Rules
  import opened RefResolver
  import opened Enjoi

  const TypeNames: set<string> := {"array", "boolean", "integer", "number", "object", "string"}

  /**
   * No keyword is an array index or `length`, so reading a keyword with
   * `Field` is the property read `current[name]` on every value.
   */
  lemma KeywordReads(v: Json, name: string)
    requires name in Keywords
    ensures Field(v, name) == Prop(v, name)
  {
    assert name[0] in {'t', '$', 'e', 'p', 'r', 'i', 'u', 'm'};
    FieldIsProp(v, name);
  }

  // Dispatch order of `resolve`.

  /**
   * A truthy string `type` decides the rule, whatever `$ref` or `enum` the
   * node also has: each of the six names yields its own kind of rule and any
   * other name is rejected.
   */
  lemma TypeDispatch(fuel: nat, ctx: Context, current: Json, t: string)
    requires Field(current, "type") == Some(Str(t)) && t != ""
    ensures var r := Resolve(fuel, ctx, current);
      && (t == "boolean" ==> r == Ok(Optional(Boolean)))
      && (t == "integer" || t == "number" ==> r.Ok? && r.value.kind.Number? && (r.value.kind.integer <==> t == "integer"))
      && (t == "string" ==> r.Ok? && r.value.kind.String?)
      && (t == "array" && r.Ok? ==> r.value.kind.Array?)
      && (t == "object" && r.Ok? ==> r.value.kind.Object?)
      && (t !in TypeNames ==> r == Err(UnresolvedType(Some(Str(t)))))
  {
  }

  /** A truthy `type` that is not a string (an array of names, say) is rejected. */
  lemma TypeMustBeAName(fuel: nat, ctx: Context, current: Json)
    requires Present(Field(current, "type")) && !Field(current, "type").value.Str?
    ensures Resolve(fuel, ctx, current) == Err(UnresolvedType(Field(current, "type")))
  {
  }

  /**
   * Without a truthy `type`, a truthy `$ref` is followed: the node compiles
   * exactly as the fragment it names (one hop of fuel fewer), fails as the
   * reference does, and an `undefined` fragment is a TypeError.
   */
  lemma RefDispatch(fuel: nat, ctx: Context, current: Json)
    requires !current.Null? && !Present(Field(current, "type")) && Present(Field(current, "$ref"))
    ensures var target := RefTarget(ctx, Field(current, "$ref").value);
      && (target.Ok? && target.value.Some? ==> Resolve(fuel + 1, ctx, current) == Resolve(fuel, ctx, target.value.value))
      && (target == Ok(None) ==> Resolve(fuel + 1, ctx, current) == Err(TypeError))
      && (target.Err? ==> Resolve(fuel + 1, ctx, current) == Err(target.error))
  {
    var ref := Field(current, "$ref").value;
    RefNode(fuel + 1, ctx, current);
    FollowStep(fuel + 1, fuel, ctx, ref);
    if RefTarget(ctx, ref).Ok? && RefTarget(ctx, ref).value.Some? {
      FollowFound(fuel, ctx, RefTarget(ctx, ref).value.value);
    }
  }

  /** Without a truthy `type` or `$ref`, a truthy `enum` allows exactly the enum's values. */
  lemma EnumDispatch(fuel: nat, ctx: Context, current: Json)
    requires !current.Null? && !Present(Field(current, "type")) && !Present(Field(current, "$ref"))
    requires Present(Field(current, "enum"))
    ensures Resolve(fuel, ctx, current) == Ok(Optional(AnyOf(Field(current, "enum"))))
  {
  }

  /**
   * A node with none of the three keywords compiles to an unconstrained rule
   * and never fails (`false` and `[]` included); `null` has no properties and
   * throws.
   */
  lemma AnyFallback(fuel: nat, ctx: Context, current: Json)
    requires !Present(Field(current, "type")) && !Present(Field(current, "$ref")) && !Present(Field(current, "enum"))
    ensures Resolve(fuel, ctx, current) == if current.Null? then Err(TypeError) else Ok(Optional(AnyOf(None)))
  {
  }

  // Property resolution.

  /** The keys the property walk visits from the `i`-th on. */
  function KeysFrom(keys: seq<string>, i: nat): set<string> {
    set j | i <= j < |keys| :: keys[j]
  }

  /** Running the property walk from `i` on keeps `schemas` except for the keys it visits, each bound to its rule. */
  lemma {:induction false} PropertyRulesResult(fuel: nat, ctx: Context, properties: Json, required: Option<Json>,
                                               i: nat, schemas: map<string, Rule>)
    requires IsObject(properties)
    requires PropertyRules(fuel, ctx, properties, required, i, schemas).Ok?
    ensures var m, keys := PropertyRules(fuel, ctx, properties, required, i, schemas).value, OwnKeys(properties);
      && m.Keys == schemas.Keys + KeysFrom(keys, i)
      && (forall j :: i <= j < |keys| ==> PropertyRule(fuel, ctx, properties, required, keys[j]) == Ok(m[keys[j]]))
      && (forall k :: k in schemas && k !in KeysFrom(keys, i) ==> m[k] == schemas[k])
    decreases |OwnKeys(properties)| - i
  {
    var keys := OwnKeys(properties);
    if i < |keys| {
      var rule := PropertyRule(fuel, ctx, properties, required, keys[i]).value;
      var next := schemas[keys[i] := rule];
      PropertyRulesResult(fuel, ctx, properties, required, i + 1, next);
      assert KeysFrom(keys, i) == {keys[i]} + KeysFrom(keys, i + 1);
    }
  }

  /** The property walk succeeds exactly when every property it visits does. */
  lemma {:induction false} PropertyRulesFailure(fuel: nat, ctx: Context, properties: Json, required: Option<Json>,
                                                i: nat, schemas: map<string, Rule>)
    requires IsObject(properties)
    ensures var r, keys := PropertyRules(fuel, ctx, properties, required, i, schemas), OwnKeys(properties);
      r.Ok? <==> forall j :: i <= j < |keys| ==> PropertyRule(fuel, ctx, properties, required, keys[j]).Ok?
    decreases |OwnKeys(properties)| - i
  {
    var keys := OwnKeys(properties);
    if i < |keys| {
      var first := PropertyRule(fuel, ctx, properties, required, keys[i]);
      if first.Ok? {
        var next := schemas[keys[i] := first.value];
        assert PropertyRules(fuel, ctx, properties, required, i, schemas)
            == PropertyRules(fuel, ctx, properties, required, i + 1, next);
        PropertyRulesFailure(fuel, ctx, properties, required, i + 1, next);
      }
    }
  }

  /** When the property walk fails, it fails with the error of the first property that fails. */
  lemma {:induction false} PropertyRulesFirstFailure(fuel: nat, ctx: Context, properties: Json, required: Option<Json>,
                                                     i: nat, schemas: map<string, Rule>)
    requires IsObject(properties)
    requires PropertyRules(fuel, ctx, properties, required, i, schemas).Err?
    ensures var e, keys := PropertyRules(fuel, ctx, properties, required, i, schemas).error, OwnKeys(properties);
      exists j :: i <= j < |keys| && PropertyRule(fuel, ctx, properties, required, keys[j]) == Err(e)
                  && forall l :: i <= l < j ==> PropertyRule(fuel, ctx, properties, required, keys[l]).Ok?
    decreases |OwnKeys(properties)| - i
  {
    var keys := OwnKeys(properties);
    var e := PropertyRules(fuel, ctx, properties, required, i, schemas).error;
    var first := PropertyRule(fuel, ctx, properties, required, keys[i]);
    if first.Ok? {
      var next := schemas[keys[i] := first.value];
      assert PropertyRules(fuel, ctx, properties, required, i + 1, next) == Err(e);
      PropertyRulesFirstFailure(fuel, ctx, properties, required, i + 1, next);
      var j :| i + 1 <= j < |keys| && PropertyRule(fuel, ctx, properties, required, keys[j]) == Err(e)
               && forall l :: i + 1 <= l < j ==> PropertyRule(fuel, ctx, properties, required, keys[l]).Ok?;
      assert forall l :: i <= l < j ==> PropertyRule(fuel, ctx, properties, required, keys[l]).Ok?;
    } else {
      assert first == Err(e);
    }
  }

  /** A property's rule is its schema's rule, made required exactly when its key is listed in `required`. */
  lemma PropertyRuleMarking(fuel: nat, ctx: Context, properties: Json, required: Option<Json>, key: string)
    requires IsObject(properties) && key in OwnKeys(properties)
    requires PropertyRule(fuel, ctx, properties, required, key).Ok?
    ensures var rule := PropertyRule(fuel, ctx, properties, required, key).value;
      && Prop(properties, key).Some?
      && Resolve(fuel, ctx, Prop(properties, key).value) == Ok(rule.(required := false))
      && (rule.required <==> IsRequired(required, key) == Ok(true))
  {
  }

  /** The string search of the `required` test finds `part` exactly when it occurs somewhere in `s`. */
  lemma {:induction false} ContainsAt(s: string, part: string)
    ensures Contains(s, part) <==> exists i :: OccursAt(s, part, i)
    decreases |s|
  {
    if part <= s {
      assert OccursAt(s, part, 0);
    } else if s != "" {
      ContainsAt(s[1..], part);
      if exists i :: OccursAt(s, part, i) {
        var i :| OccursAt(s, part, i);
        assert s[1..][i - 1..i - 1 + |part|] == part;
        assert OccursAt(s[1..], part, i - 1);
      }
      if Contains(s[1..], part) {
        var i :| OccursAt(s[1..], part, i);
        assert s[i + 1..i + 1 + |part|] == part;
        assert OccursAt(s, part, i + 1);
      }
    }
  }

  /**
   * Every key `Object.keys` lists can be read back, so on a well-formed
   * `properties` value a property fails only because resolving its schema
   * fails or because the `required` test throws.
   */
  lemma PropertyFailureCause(fuel: nat, ctx: Context, properties: Json, required: Option<Json>, key: string)
    requires IsObject(properties) && (properties.Obj? ==> WellFormedObject(properties))
    requires key in OwnKeys(properties)
    requires PropertyRule(fuel, ctx, properties, required, key).Err?
    ensures Prop(properties, key).Some?
    ensures var e := PropertyRule(fuel, ctx, properties, required, key).error;
      Resolve(fuel, ctx, Prop(properties, key).value) == Err(e)
      || (Resolve(fuel, ctx, Prop(properties, key).value).Ok? && IsRequired(required, key) == Err(e))
  {
    OwnKeysReadable(properties, key);
  }

  /**
   * `resolveproperties`: `undefined` unless `properties` is an object; else
   * one rule per key of `properties` and no other, each the rule of its
   * schema, required exactly when its name is listed in `required`; and it
   * fails exactly when one of the properties fails.
   */
  lemma PropertiesSpec(fuel: nat, ctx: Context, current: Json)
    ensures var properties, r := Field(current, "properties"), PropertiesOf(fuel, ctx, current);
      && (properties.None? || !IsObject(properties.value) ==> r == Ok(None))
      && (properties.Some? && IsObject(properties.value) ==>
            var props, required := properties.value, Field(current, "required");
            && (r.Ok? <==> forall k :: k in OwnKeys(props) ==> PropertyRule(fuel, ctx, props, required, k).Ok?)
            && (r.Ok? ==>
                  && r.value.Some?
                  && r.value.value.Keys == (set k | k in OwnKeys(props))
                  && forall k :: k in r.value.value ==>
                       && Prop(props, k).Some?
                       && Resolve(fuel, ctx, Prop(props, k).value) == Ok(r.value.value[k].(required := false))
                       && (r.value.value[k].required <==> IsRequired(required, k) == Ok(true))))
  {
    var properties := Field(current, "properties");
    if properties.Some? && IsObject(properties.value) {
      var props, required := properties.value, Field(current, "required");
      var keys := OwnKeys(props);
      PropertyRulesFailure(fuel, ctx, props, required, 0, map[]);
      var r := PropertyRules(fuel, ctx, props, required, 0, map[]);
      if r.Ok? {
        PropertyRulesResult(fuel, ctx, props, required, 0, map[]);
        forall k | k in keys ensures k in r.value.Keys && PropertyRule(fuel, ctx, props, required, k).Ok? {
          var j :| 0 <= j < |keys| && keys[j] == k;
        }
        forall k | k in r.value
          ensures Prop(props, k).Some?
          ensures Resolve(fuel, ctx, Prop(props, k).value) == Ok(r.value[k].(required := false))
          ensures r.value[k].required <==> IsRequired(required, k) == Ok(true)
        {
          var j :| 0 <= j < |keys| && keys[j] == k;
          PropertyRuleMarking(fuel, ctx, props, required, k);
        }
      } else {
        var j :| 0 <= j < |keys| && !PropertyRule(fuel, ctx, props, required, keys[j]).Ok?;
        assert keys[j] in keys;
      }
    }
  }

  // Bounds and flags.

  /** `b` is the value of `keyword` when that is a number, and unset otherwise. */
  predicate BoundFrom(b: Option<real>, keyword: Option<Json>) {
    && (b.Some? <==> keyword.Some? && keyword.value.Num?)
    && (b.Some? ==> keyword == Some(Num(b.value)))
  }

  /**
   * Each builder attaches a bound exactly when its keyword is a number,
   * `unique` exactly when `uniqueItems` is truthy and a pattern exactly when
   * `pattern` is truthy; nested rules come from resolving `items` and
   * `properties`.
   */
  lemma BuilderRefinements(fuel: nat, ctx: Context, current: Json)
    requires Present(Field(current, "type")) && Resolve(fuel, ctx, current).Ok?
    ensures var k := Resolve(fuel, ctx, current).value.kind;
      && (k.Number? ==> BoundFrom(k.min, Field(current, "minimum")) && BoundFrom(k.max, Field(current, "maximum"))
                        && (k.integer <==> Field(current, "type") == Some(Str("integer"))))
      && (k.String? ==> BoundFrom(k.minLength, Field(current, "minLength")) && BoundFrom(k.maxLength, Field(current, "maxLength"))
                        && (k.pattern.Some? <==> Present(Field(current, "pattern")))
                        && (k.pattern.Some? ==> k.pattern == Field(current, "pattern")))
      && (k.Array? ==> BoundFrom(k.minItems, Field(current, "minItems")) && BoundFrom(k.maxItems, Field(current, "maxItems"))
                       && (k.unique <==> Present(Field(current, "uniqueItems")))
                       && Field(current, "items").Some?
                       && Resolve(fuel, ctx, Field(current, "items").value) == Ok(k.items))
      && (k.Object? ==> BoundFrom(k.minKeys, Field(current, "minProperties")) && BoundFrom(k.maxKeys, Field(current, "maxProperties"))
                        && PropertiesOf(fuel, ctx, current) == Ok(k.keys))
      && (k.AnyOf? ==> false)
  {
    var declared := Field(current, "type");
    assert Resolve(fuel, ctx, current) == ResolveType(fuel, ctx, current);
    if declared == Some(Str("array")) {
      assert ResolveType(fuel, ctx, current) == ArrayRule(fuel, ctx, current);
      assert BoundFrom(NumberAt(current, "minItems"), Field(current, "minItems"));
      assert BoundFrom(NumberAt(current, "maxItems"), Field(current, "maxItems"));
    } else if declared == Some(Str("object")) {
      assert ResolveType(fuel, ctx, current) == ObjectRule(fuel, ctx, current);
      assert BoundFrom(NumberAt(current, "minProperties"), Field(current, "minProperties"));
      assert BoundFrom(NumberAt(current, "maxProperties"), Field(current, "maxProperties"));
    }
  }

  // Entry checks.

  /** `enjoi` rejects a non-object schema and a truthy non-object registry, and otherwise resolves the schema. */
  lemma EntryChecks(fuel: nat, schema: Option<Json>, subSchemas: Option<Json>)
    ensures schema.None? || !IsObject(schema.value) ==> Compile(fuel, schema, subSchemas) == Err(InvalidSchema)
    ensures schema.Some? && IsObject(schema.value) && Present(subSchemas) && !IsObject(subSchemas.value)
            ==> Compile(fuel, schema, subSchemas) == Err(InvalidSubSchemas)
    ensures schema.Some? && IsObject(schema.value) && (!Present(subSchemas) || IsObject(subSchemas.value))
            ==> Compile(fuel, schema, subSchemas) == Resolve(fuel, Context(schema.value, subSchemas), schema.value)
  {
  }

  // Fuel only bounds `$ref` chains.

  /** A resolution that did not run out of fuel gives the same result under any larger budget. */
  lemma {:induction false} ResolveFuel(fuel: nat, more: nat, ctx: Context, current: Json)
    requires fuel <= more
    requires Resolve(fuel, ctx, current) != Err(StackOverflow)
    ensures Resolve(more, ctx, current) == Resolve(fuel, ctx, current)
    decreases fuel, current, 3, 1
  {
    if current.Null? || (!Present(Field(current, "type")) && !Present(Field(current, "$ref"))) {
      FuelFreeNode(fuel, more, ctx, current);
    } else if Present(Field(current, "type")) {
      TypedNode(fuel, ctx, current);
      TypedNode(more, ctx, current);
      ResolveTypeFuel(fuel, more, ctx, current);
    } else {
      RefFuel(fuel, more, ctx, current);
    }
  }

  /** `ResolveFuel` for a node resolved through its `$ref`. */
  lemma {:induction false} RefFuel(fuel: nat, more: nat, ctx: Context, current: Json)
    requires fuel <= more
    requires !current.Null? && !Present(Field(current, "type")) && Present(Field(current, "$ref"))
    requires Resolve(fuel, ctx, current) != Err(StackOverflow)
    ensures Resolve(more, ctx, current) == Resolve(fuel, ctx, current)
    decreases fuel, current, 3, 0
  {
    RefNodeHasFuel(fuel, ctx, current);
    var ref := Field(current, "$ref").value;
    var less: nat, lessMore: nat := fuel - 1, more - 1;
    RefNode(fuel, ctx, current);
    RefNode(more, ctx, current);
    FollowStep(fuel, less, ctx, ref);
    FollowStep(more, lessMore, ctx, ref);
    var target := RefTarget(ctx, ref);
    if target.Ok? && target.value.Some? {
      var t := target.value.value;
      FollowFound(less, ctx, t);
      FollowFound(lessMore, ctx, t);
      ResolveFuel(less, lessMore, ctx, t);
    }
  }

  /** A `$ref` node that does not overflow had budget for at least one hop. */
  lemma RefNodeHasFuel(fuel: nat, ctx: Context, current: Json)
    requires !current.Null? && !Present(Field(current, "type")) && Present(Field(current, "$ref"))
    requires Resolve(fuel, ctx, current) != Err(StackOverflow)
    ensures fuel > 0
  {
  }

  /** `null`, and a node with neither a truthy `type` nor a truthy `$ref`, resolve without spending any budget. */
  lemma FuelFreeNode(fuel: nat, more: nat, ctx: Context, current: Json)
    requires current.Null? || (!Present(Field(current, "type")) && !Present(Field(current, "$ref")))
    ensures Resolve(more, ctx, current) == Resolve(fuel, ctx, current)
  {
  }

  /** A node with a truthy `type` resolves through `resolvetype`. */
  lemma TypedNode(fuel: nat, ctx: Context, current: Json)
    requires !current.Null? && Present(Field(current, "type"))
    ensures Resolve(fuel, ctx, current) == ResolveType(fuel, ctx, current)
  {
  }

  /** A node with no truthy `type` but a truthy `$ref` is resolved by following the reference. */
  lemma RefNode(fuel: nat, ctx: Context, current: Json)
    requires !current.Null? && !Present(Field(current, "type")) && Present(Field(current, "$ref"))
    ensures Resolve(fuel, ctx, current) == Follow(fuel, ctx, Field(current, "$ref").value)
  {
  }

  /** With a hop left, a reference is followed through the resolver's outcome. */
  lemma FollowStep(fuel: nat, less: nat, ctx: Context, ref: Json)
    requires fuel == less + 1
    ensures Follow(fuel, ctx, ref) == FollowTarget(less, ctx, RefTarget(ctx, ref))
  {
  }

  /** A found schema is resolved in turn. */
  lemma FollowFound(fuel: nat, ctx: Context, t: Json)
    ensures FollowTarget(fuel, ctx, Ok(Some(t))) == Resolve(fuel, ctx, t)
  {
  }

  lemma {:induction false} ResolveTypeFuel(fuel: nat, more: nat, ctx: Context, current: Json)
    requires fuel <= more
    requires ResolveType(fuel, ctx, current) != Err(StackOverflow)
    ensures ResolveType(more, ctx, current) == ResolveType(fuel, ctx, current)
    decreases fuel, current, 2
  {
    var declared := Field(current, "type");
    if declared == Some(Str("array")) {
      ArrayRuleFuel(fuel, more, ctx, current);
    } else if declared == Some(Str("object")) {
      PropertiesOfFuel(fuel, more, ctx, current);
    }
  }

  lemma {:induction false} ArrayRuleFuel(fuel: nat, more: nat, ctx: Context, current: Json)
    requires fuel <= more
    requires ArrayRule(fuel, ctx, current) != Err(StackOverflow)
    ensures ArrayRule(more, ctx, current) == ArrayRule(fuel, ctx, current)
    decreases fuel, current, 1
  {
    var items := Field(current, "items");
    if items.Some? {
      ResolveFuel(fuel, more, ctx, items.value);
    }
  }

  lemma {:induction false} PropertiesOfFuel(fuel: nat, more: nat, ctx: Context, current: Json)
    requires fuel <= more
    requires PropertiesOf(fuel, ctx, current) != Err(StackOverflow)
    ensures PropertiesOf(more, ctx, current) == PropertiesOf(fuel, ctx, current)
    decreases fuel, current, 0
  {
    var properties := Field(current, "properties");
    if properties.Some? && IsObject(properties.value) {
      PropertyRulesFuel(fuel, more, ctx, properties.value, Field(current, "required"), 0, map[]);
    }
  }

  lemma {:induction false} PropertyRulesFuel(fuel: nat, more: nat, ctx: Context, properties: Json, required: Option<Json>,
                                             i: nat, schemas: map<string, Rule>)
    requires fuel <= more && IsObject(properties)
    requires PropertyRules(fuel, ctx, properties, required, i, schemas) != Err(StackOverflow)
    ensures PropertyRules(more, ctx, properties, required, i, schemas)
         == PropertyRules(fuel, ctx, properties, required, i, schemas)
    decreases fuel, properties, 4, |OwnKeys(properties)| - i
  {
    var keys := OwnKeys(properties);
    if i < |keys| {
      PropertyRuleFuel(fuel, more, ctx, properties, required, keys[i]);
      var rule := PropertyRule(fuel, ctx, properties, required, keys[i]);
      if rule.Ok? {
        PropertyRulesFuel(fuel, more, ctx, properties, required, i + 1, schemas[keys[i] := rule.value]);
      }
    }
  }

  lemma {:induction false} PropertyRuleFuel(fuel: nat, more: nat, ctx: Context, properties: Json, required: Option<Json>,
                                            key: string)
    requires fuel <= more && IsObject(properties) && key in OwnKeys(properties)
    requires PropertyRule(fuel, ctx, properties, required, key) != Err(StackOverflow)
    ensures PropertyRule(more, ctx, properties, required, key) == PropertyRule(fuel, ctx, properties, required, key)
    decreases fuel, properties, 4, 0
  {
    var property := Prop(properties, key);
    if property.Some? {
      ResolveFuel(fuel, more, ctx, property.value);
    }
  }

  /** Fuel is only a bound: once a compile finishes without overflowing, more fuel changes nothing. */
  lemma {:induction false} CompileFuelMonotone(fuel: nat, more: nat, schema: Option<Json>, subSchemas: Option<Json>)
    requires fuel <= more
    requires Compile(fuel, schema, subSchemas) != Err(StackOverflow)
    ensures Compile(more, schema, subSchemas) == Compile(fuel, schema, subSchemas)
  {
    if schema.Some? && IsObject(schema.value) && (!Present(subSchemas) || IsObject(subSchemas.value)) {
      ResolveFuel(fuel, more, Context(schema.value, subSchemas), schema.value);
    }
  }

  /** The schema `{"$ref": "#"}` names itself; compiled without a registry it never finishes, whatever the fuel. */
  lemma {:induction false} SelfReferenceOverflows(fuel: nat)
    ensures Compile(fuel, Some(Obj(["$ref"], map["$ref" := Str("#")])), None) == Err(StackOverflow)
  {
    SelfReferenceResolves(fuel, Context(Obj(["$ref"], map["$ref" := Str("#")]), None));
  }

  /** Without a registry, `#` names the root schema itself, so the root `{"$ref": "#"}` is followed until the budget runs out. */
  lemma {:induction false} SelfReferenceResolves(fuel: nat, ctx: Context)
    requires ctx.schema == Obj(["$ref"], map["$ref" := Str("#")]) && !Present(ctx.subSchemas)
    ensures Resolve(fuel, ctx, ctx.schema) == Err(StackOverflow)
  {
    if fuel > 0 {
      assert Field(ctx.schema, "type") == None && Field(ctx.schema, "$ref") == Some(Str("#"));
      WholeRootDocument(ctx);
      RefNode(fuel, ctx, ctx.schema);
      FollowStep(fuel, fuel - 1, ctx, Str("#"));
      FollowFound(fuel - 1, ctx, ctx.schema);
      SelfReferenceResolves(fuel - 1, ctx);
    }
  }

  /**
   * With a registry that has no truthy `#` or `""` entry, the root
   * `{"$ref": "#"}` is looked up there and fails "Can not find schema
   * reference" once a hop is allowed.
   */
  lemma SelfReferenceMissing(fuel: nat, ctx: Context)
    requires ctx.schema == Obj(["$ref"], map["$ref" := Str("#")]) && Present(ctx.subSchemas)
    requires !Present(Prop(ctx.subSchemas.value, "#")) && !Present(Prop(ctx.subSchemas.value, ""))
    ensures Resolve(fuel, ctx, ctx.schema) == if fuel == 0 then Err(StackOverflow) else Err(MissingReference("#"))
  {
    assert Field(ctx.schema, "type") == None && Field(ctx.schema, "$ref") == Some(Str("#"));
    RefNode(fuel, ctx, ctx.schema);
    if fuel > 0 {
      WholeRootDocument(ctx);
      FollowStep(fuel, fuel - 1, ctx, Str("#"));
    }
  }
}
