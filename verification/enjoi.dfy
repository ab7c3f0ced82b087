/**
 * The schema compiler: `enjoi(schema, subSchemas)` checks its arguments and
 * resolves the schema into a rule tree by one recursive walk. `Resolve`
 * dispatches on `type`, then `$ref`, then `enum`; `ResolveType` selects a
 * builder; the builders attach bounds and flags and resolve nested schemas.
 *
 * The functions on the `resolve` recursion, and `Compile`, take `fuel`, the
 * number of `$ref` hops still allowed on the current path; running out
 * stands for the call stack overflowing on a reference chain that never ends.
 */
module Enjoi {
  import opened Wrappers
  import opened Json
  import opened Rules
  import opened RefResolver

  /** The schema keywords the compiler reads. */
  const Keywords: set<string> :=
    {"type", "$ref", "enum", "properties", "required", "items", "uniqueItems", "minItems", "maxItems",
     "minimum", "maximum", "pattern", "minLength", "maxLength", "minProperties", "maxProperties"}

  /** A rule on which `.required()` has not been called. */
  function Optional(kind: Kind): (r: Rule)
    ensures r.kind == kind && !r.required
  {
    Rule(kind, false)
  }

  /** `resolve(current)`: dispatch on a truthy `type`, else a truthy `$ref`, else a truthy `enum`, else any value. */
  function Resolve(fuel: nat, ctx: Context, current: Json): (r: Result<Rule, Error>)
    ensures r.Ok? ==> !r.value.required
    decreases fuel, current, 3
  {
    if current.Null? then Err(TypeError)
    else if Present(Field(current, "type")) then ResolveType(fuel, ctx, current)
    else if Present(Field(current, "$ref")) then
      Follow(fuel, ctx, Field(current, "$ref").value)
    else if Present(Field(current, "enum")) then Ok(Optional(AnyOf(Field(current, "enum"))))
    else Ok(Optional(AnyOf(None)))
  }

  /**
   * `resolve(refresolver(ref))`: with no hop left the recursion has
   * overflowed; otherwise the resolver's outcome is followed with one hop less.
   */
  function Follow(fuel: nat, ctx: Context, ref: Json): (r: Result<Rule, Error>)
    ensures r.Ok? ==> !r.value.required
    ensures fuel == 0 ==> r == Err(StackOverflow)
    decreases fuel, ref, 2
  {
    if fuel == 0 then Err(StackOverflow) else FollowTarget(fuel - 1, ctx, RefTarget(ctx, ref))
  }

  /**
   * What `resolve` does with the outcome of the reference resolver: its error
   * propagates, an `undefined` target is a `TypeError`, and a found schema is
   * resolved in turn.
   */
  function FollowTarget(fuel: nat, ctx: Context, target: Result<Option<Json>, Error>): (r: Result<Rule, Error>)
    ensures r.Ok? ==> !r.value.required
    ensures target.Err? ==> r == Err(target.error)
    ensures target == Ok(None) ==> r == Err(TypeError)
    decreases fuel, target, 4
  {
    match target
    case Err(e) => Err(e)
    case Ok(None) => Err(TypeError)
    case Ok(Some(schema)) => Resolve(fuel, ctx, schema)
  }

  /** `resolvetype(current)`: the builder for each of the six type names; any other `type` is rejected. */
  function ResolveType(fuel: nat, ctx: Context, current: Json): (r: Result<Rule, Error>)
    ensures r.Ok? ==> !r.value.required
    decreases fuel, current, 2
  {
    var declared := Field(current, "type");
    if declared == Some(Str("array")) then ArrayRule(fuel, ctx, current)
    else if declared == Some(Str("boolean")) then Ok(Optional(Boolean))
    else if declared == Some(Str("integer")) || declared == Some(Str("number")) then Ok(NumberRule(current))
    else if declared == Some(Str("object")) then ObjectRule(fuel, ctx, current)
    else if declared == Some(Str("string")) then Ok(StringRule(current))
    else Err(UnresolvedType(declared))
  }

  /**
   * `current.required.indexOf(key)` found, when `current.required` is truthy:
   * an array holds the name, a string contains it; any other truthy value has
   * no `indexOf` and throws.
   */
  function IsRequired(required: Option<Json>, key: string): (r: Result<bool, Error>)
    ensures r.Err? <==> Present(required) && !required.value.Arr? && !required.value.Str?
    ensures required.Some? && required.value.Arr? ==> r == Ok(Str(key) in required.value.items)
  {
    if !Present(required) then Ok(false)
    else
      match required.value
      case Arr(items) => Ok(Str(key) in items)
      case Str(s) => Ok(Contains(s, key))
      case _ => Err(TypeError)
  }

  /** `s.indexOf(part) !== -1`: `part` starts at some position of `s`. */
  predicate Contains(s: string, part: string)
    decreases |s|
  {
    part <= s || (s != "" && Contains(s[1..], part))
  }

  /** `part` occurs in `s` starting at position `i`. */
  predicate OccursAt(s: string, part: string, i: int) {
    0 <= i && i + |part| <= |s| && s[i..i + |part|] == part
  }

  /**
   * One round of the `forEach` in `resolveproperties`: resolve the property's
   * schema, then call `.required()` on the rule when the key is listed.
   */
  function PropertyRule(fuel: nat, ctx: Context, properties: Json, required: Option<Json>, key: string)
    : (r: Result<Rule, Error>)
    requires IsObject(properties) && key in OwnKeys(properties)
    ensures Prop(properties, key).None? ==> r == Err(TypeError)
    ensures r.Ok? ==> IsRequired(required, key).Ok? && (r.value.required <==> IsRequired(required, key) == Ok(true))
    decreases fuel, properties, 4, 0
  {
    var property := Prop(properties, key);
    if property.None? then Err(TypeError)
    else
      match Resolve(fuel, ctx, property.value)
      case Err(e) => Err(e)
      case Ok(rule) =>
        match IsRequired(required, key)
        case Err(e) => Err(e)
        case Ok(listed) => Ok(if listed then rule.(required := true) else rule)
  }

  /**
   * The `forEach` of `resolveproperties` from the `i`-th key of
   * `Object.keys(properties)` on, with `schemas` the rules stored so far;
   * the first property that fails aborts the whole walk.
   */
  function PropertyRules(fuel: nat, ctx: Context, properties: Json, required: Option<Json>, i: nat,
                         schemas: map<string, Rule>): (r: Result<map<string, Rule>, Error>)
    requires IsObject(properties)
    ensures r.Ok? ==> schemas.Keys <= r.value.Keys
    ensures r.Ok? ==> forall j :: i <= j < |OwnKeys(properties)| ==> OwnKeys(properties)[j] in r.value
    decreases fuel, properties, 4, |OwnKeys(properties)| - i
  {
    var keys := OwnKeys(properties);
    if i >= |keys| then Ok(schemas)
    else
      match PropertyRule(fuel, ctx, properties, required, keys[i])
      case Err(e) => Err(e)
      case Ok(rule) => PropertyRules(fuel, ctx, properties, required, i + 1, schemas[keys[i] := rule])
  }

  /** `resolveproperties(current)`: `None` (`undefined`) unless `current.properties` is an object. */
  function PropertiesOf(fuel: nat, ctx: Context, current: Json): (r: Result<Option<map<string, Rule>>, Error>)
    ensures r == Ok(None) <==> Field(current, "properties").None? || !IsObject(Field(current, "properties").value)
    ensures r.Ok? && r.value.Some? ==> forall k :: k in OwnKeys(Field(current, "properties").value) ==> k in r.value.value
    decreases fuel, current, 0
  {
    var properties := Field(current, "properties");
    if properties.None? || !IsObject(properties.value) then Ok(None)
    else
      match PropertyRules(fuel, ctx, properties.value, Field(current, "required"), 0, map[])
      case Err(e) => Err(e)
      case Ok(schemas) => Ok(Some(schemas))
  }

  /** `resolveproperties` as the source runs it: a loop that fills the `schemas` dictionary. */
  method ResolveProperties(fuel: nat, ctx: Context, current: Json) returns (r: Result<Option<map<string, Rule>>, Error>)
    ensures r == PropertiesOf(fuel, ctx, current)
  {
    var properties := Field(current, "properties");
    if properties.None? || !IsObject(properties.value) {
      return Ok(None);
    }
    var props, required := properties.value, Field(current, "required");
    var keys := OwnKeys(props);
    var schemas: map<string, Rule> := map[];
    var i := 0;
    while i < |keys|
      invariant i <= |keys|
      invariant PropertyRules(fuel, ctx, props, required, i, schemas)
             == PropertyRules(fuel, ctx, props, required, 0, map[])
    {
      var key := keys[i];
      var property := Prop(props, key);
      if property.None? {
        return Err(TypeError);
      }
      var rule := Resolve(fuel, ctx, property.value);
      if rule.Err? {
        return Err(rule.error);
      }
      var listed := IsRequired(required, key);
      if listed.Err? {
        return Err(listed.error);
      }
      schemas := schemas[key := if listed.value then rule.value.(required := true) else rule.value];
      i := i + 1;
    }
    return Ok(Some(schemas));
  }

  /** `object(current)`: the property rules, with key-count bounds from numeric `minProperties`/`maxProperties`. */
  function ObjectRule(fuel: nat, ctx: Context, current: Json): (r: Result<Rule, Error>)
    ensures r.Ok? ==> !r.value.required && r.value.kind.Object?
    decreases fuel, current, 1
  {
    match PropertiesOf(fuel, ctx, current)
    case Err(e) => Err(e)
    case Ok(keys) =>
      Ok(Optional(Object(keys, NumberAt(current, "minProperties"), NumberAt(current, "maxProperties"))))
  }

  /** `array(current)`: the rule of `items` for every element, length bounds, and `unique` when `uniqueItems` is truthy. */
  function ArrayRule(fuel: nat, ctx: Context, current: Json): (r: Result<Rule, Error>)
    ensures r.Ok? ==> !r.value.required && r.value.kind.Array?
    decreases fuel, current, 1
  {
    var items := Field(current, "items");
    if items.None? then Err(TypeError)
    else
      match Resolve(fuel, ctx, items.value)
      case Err(e) => Err(e)
      case Ok(rule) =>
        Ok(Optional(Array(rule, NumberAt(current, "minItems"), NumberAt(current, "maxItems"),
                          Present(Field(current, "uniqueItems")))))
  }

  /** `number(current)`: integral exactly when `type` is `'integer'`, with numeric `minimum`/`maximum`. */
  function NumberRule(current: Json): (r: Rule)
    ensures r.kind.Number? && !r.required
    ensures r.kind.integer <==> Field(current, "type") == Some(Str("integer"))
    ensures r.kind.min == NumberAt(current, "minimum") && r.kind.max == NumberAt(current, "maximum")
  {
    Optional(Number(Field(current, "type") == Some(Str("integer")),
                    NumberAt(current, "minimum"), NumberAt(current, "maximum")))
  }

  /** `string(current)`: a truthy `pattern`, and numeric `minLength`/`maxLength`. */
  function StringRule(current: Json): (r: Rule)
    ensures r.kind.String? && !r.required
    ensures r.kind.pattern.Some? <==> Present(Field(current, "pattern"))
    ensures r.kind.pattern.Some? ==> r.kind.pattern == Field(current, "pattern")
    ensures r.kind.minLength == NumberAt(current, "minLength") && r.kind.maxLength == NumberAt(current, "maxLength")
  {
    var pattern := Field(current, "pattern");
    Optional(String(if Present(pattern) then pattern else None,
                    NumberAt(current, "minLength"), NumberAt(current, "maxLength")))
  }

  /**
   * `enjoi(schema, subSchemas)`: the schema must be an object (arrays
   * included), the registry absent, falsy or an object; then the schema is
   * resolved against itself and the registry.
   */
  function Compile(fuel: nat, schema: Option<Json>, subSchemas: Option<Json>): (r: Result<Rule, Error>)
    ensures schema.None? || !IsObject(schema.value) ==> r == Err(InvalidSchema)
    ensures schema.Some? && IsObject(schema.value) && Present(subSchemas) && !IsObject(subSchemas.value)
            ==> r == Err(InvalidSubSchemas)
    ensures r.Ok? ==> !r.value.required
  {
    if schema.None? || !IsObject(schema.value) then Err(InvalidSchema)
    else if Present(subSchemas) && !IsObject(subSchemas.value) then Err(InvalidSubSchemas)
    else Resolve(fuel, Context(schema.value, subSchemas), schema.value)
  }
}
