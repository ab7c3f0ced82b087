/** Whole compiles of small schemas, worked through the model. */
module CompileExamples {
  import opened Wrappers
  import opened Json
  import opened Rules
  import opened RefResolver
  import opened Enjoi
  import opened EnjoiLemmas

  /** `{"type": "string", "minLength": 2}` */
  const ShortString: Json := Obj(["type", "minLength"], map["type" := Str("string"), "minLength" := Num(2.0)])

  /** `{"type": "object", "properties": {"a": <ShortString>}, "required": ["a"]}` */
  const RequiredA: Json :=
    Obj(["type", "properties", "required"],
        map["type" := Str("object"), "properties" := Obj(["a"], map["a" := ShortString]), "required" := Arr([Str("a")])])

  /** The string property compiles to a string rule of minimum length 2, and `required` marks it. */
  lemma RequiredAProperty(ctx: Context)
    ensures PropertyRule(0, ctx, RequiredA.fields["properties"], Some(Arr([Str("a")])), "a")
         == Ok(Rule(String(None, Some(2.0), None), true))
  {
    assert Field(ShortString, "type") == Some(Str("string"));
    assert Resolve(0, ctx, ShortString) == Ok(Optional(String(None, Some(2.0), None)));
  }

  /** `RequiredA` compiles to an object rule whose only key `a` is a required string rule of minimum length 2. */
  lemma RequiredProperty()
    ensures Compile(0, Some(RequiredA), None)
         == Ok(Optional(Object(Some(map["a" := Rule(String(None, Some(2.0), None), true)]), None, None)))
  {
    var ctx := Context(RequiredA, None);
    var props, required := RequiredA.fields["properties"], Some(Arr([Str("a")]));
    RequiredAProperty(ctx);
    var m := map["a" := Rule(String(None, Some(2.0), None), true)];
    assert OwnKeys(props) == ["a"];
    assert PropertyRules(0, ctx, props, required, 1, m) == Ok(m);
    assert PropertyRules(0, ctx, props, required, 0, map[]) == Ok(m);
    assert PropertiesOf(0, ctx, RequiredA) == Ok(Some(m));
    assert NumberAt(RequiredA, "minProperties").None? && NumberAt(RequiredA, "maxProperties").None?;
    assert ObjectRule(0, ctx, RequiredA) == Ok(Optional(Object(Some(m), None, None)));
    assert Field(RequiredA, "type") == Some(Str("object"));
    assert ResolveType(0, ctx, RequiredA) == ObjectRule(0, ctx, RequiredA);
  }

  /** `{"type": "integer"}` */
  const IntegerSchema: Json := Obj(["type"], map["type" := Str("integer")])

  /** `{"$ref": "#/definitions/x"}` */
  const PointerRef: Json := Obj(["$ref"], map["$ref" := Str("#/definitions/x")])

  /** `{"n": <PointerRef>}` */
  const PointerProps: Json := Obj(["n"], map["n" := PointerRef])

  /** `{"type": "object", "properties": <PointerProps>, "definitions": {"x": <IntegerSchema>}}` */
  const PointerSchema: Json :=
    Obj(["type", "properties", "definitions"],
        map["type" := Str("object"), "properties" := PointerProps,
            "definitions" := Obj(["x"], map["x" := IntegerSchema])])

  /** A registry with one named schema, `{"urn:a#": {"type": "string"}}`. */
  const UrnRegistry: Json := Obj(["urn:a#"], map["urn:a#" := Obj(["type"], map["type" := Str("string")])])

  /** `UrnRegistry` has no entry under `#` or `""`. */
  lemma UrnRegistryLacksBareIds()
    ensures !Present(Prop(UrnRegistry, "#")) && !Present(Prop(UrnRegistry, ""))
  {
    assert "#" != "urn:a#" && "" != "urn:a#";
  }

  /** As written, `#/definitions/x` is looked up in `UrnRegistry` and is missing, whatever the root schema. */
  lemma PointerRefMissing(ctx: Context)
    requires IsObject(ctx.schema) && ctx.subSchemas == Some(UrnRegistry)
    ensures RefTarget(ctx, Str("#/definitions/x")) == Err(MissingReference("#/definitions/x"))
  {
    UrnRegistryLacksBareIds();
    assert "#" + "/definitions/x" == "#/definitions/x";
    BareFragmentWithRegistry(ctx, "/definitions/x");
  }

  /** So resolving `PointerRef` under that registry fails once a hop is allowed. */
  lemma PointerRefFails(fuel: nat, ctx: Context)
    requires fuel > 0 && IsObject(ctx.schema) && ctx.subSchemas == Some(UrnRegistry)
    ensures Resolve(fuel, ctx, PointerRef) == Err(MissingReference("#/definitions/x"))
  {
    PointerRefMissing(ctx);
    assert Field(PointerRef, "type") == None && Field(PointerRef, "$ref") == Some(Str("#/definitions/x"));
    RefNode(fuel, ctx, PointerRef);
    FollowStep(fuel, fuel - 1, ctx, Str("#/definitions/x"));
  }

  /** As written, property `n` of `PointerSchema` fails under `UrnRegistry`. */
  lemma PointerPropertyFails(fuel: nat, ctx: Context)
    requires fuel > 0 && IsObject(ctx.schema) && ctx.subSchemas == Some(UrnRegistry)
    ensures PropertyRule(fuel, ctx, PointerProps, None, "n")
         == Err(MissingReference("#/definitions/x"))
  {
    PointerRefFails(fuel, ctx);
  }

  /** As written, so does the properties walk over `PointerProps`, whose only key is `n`. */
  lemma PointerPropertiesFail(fuel: nat, ctx: Context)
    requires fuel > 0 && IsObject(ctx.schema) && ctx.subSchemas == Some(UrnRegistry)
    ensures PropertyRules(fuel, ctx, PointerProps, None, 0, map[]) == Err(MissingReference("#/definitions/x"))
  {
    PointerPropertyFails(fuel, ctx);
    assert OwnKeys(PointerProps) == ["n"];
  }

  /**
   * As written, `PointerSchema` compiled with `UrnRegistry` fails: the
   * in-document reference of property `n` is looked up in the registry and is
   * missing there.
   */
  lemma PointerWithRegistryFails(fuel: nat)
    requires fuel > 0
    ensures Compile(fuel, Some(PointerSchema), Some(UrnRegistry)) == Err(MissingReference("#/definitions/x"))
  {
    var ctx := Context(PointerSchema, Some(UrnRegistry));
    PointerPropertiesFail(fuel, ctx);
    assert Field(PointerSchema, "properties") == Some(PointerProps) && Field(PointerSchema, "required") == None;
    assert PropertiesOf(fuel, ctx, PointerSchema) == Err(MissingReference("#/definitions/x"));
    assert Field(PointerSchema, "type") == Some(Str("object"));
    assert ResolveType(fuel, ctx, PointerSchema) == ObjectRule(fuel, ctx, PointerSchema);
  }

  /** `definitions.x` of `PointerSchema` is `IntegerSchema`. */
  lemma PointerDescends()
    ensures Descend(PointerSchema, ["definitions", "x"]) == Some(IntegerSchema)
  {
    assert Descend(Prop(PointerSchema, "definitions").value, ["x"]) == Some(IntegerSchema);
  }

  /** Under the corrected reading, the same reference names `definitions.x` of the root schema despite the registry. */
  lemma PointerWithRegistryCorrected()
    ensures RefTargetCorrected(Context(PointerSchema, Some(UrnRegistry)), Str("#/definitions/x")) == Ok(Some(IntegerSchema))
  {
    var keys := ["definitions", "x"];
    PointerDescends();
    assert JoinPath([""] + keys) == "/definitions/x";
    InDocumentPointer(Context(PointerSchema, Some(UrnRegistry)), keys);
  }

  /** `{"a": [1, 2]}` */
  const ArrayDoc: Json := Obj(["a"], map["a" := Arr([Num(1.0), Num(2.0)])])

  /** A pointer steps into arrays by index: `a/1` of `ArrayDoc` is its second element. */
  lemma ArrayDescends()
    ensures Descend(ArrayDoc, ["a", "1"]) == Some(Num(2.0))
  {
    assert ParseIndex("1") == Some(1);
    assert Descend(Prop(ArrayDoc, "a").value, ["1"]) == Some(Num(2.0));
  }

  /** So `#/a/1` resolves, with no registry, to that element. */
  lemma ArrayPointer()
    ensures RefTarget(Context(ArrayDoc, None), Str("#/a/1")) == Ok(Some(Num(2.0)))
  {
    var keys := ["a", "1"];
    ArrayDescends();
    assert JoinPath([""] + keys) == "/a/1";
    InDocumentPointer(Context(ArrayDoc, None), keys);
  }
}
