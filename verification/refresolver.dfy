/**
 * Resolution of a `$ref` string to the schema fragment it names: the string
 * is split at its first `#` into a document id and a `/`-separated path, the
 * id selects the target document (an entry of the registry or the root
 * schema) and the path is walked from that document one key at a time.
 */
module RefResolver {
  import opened Wrappers
  import opened Json
  import opened Rules

  /** What every resolution step can see: the root schema and the optional registry of named schemas. */
  datatype Context = Context(schema: Json, subSchemas: Option<Json>)

  /** `s.indexOf(c)`: the position of the first `c`, or -1. */
  function IndexOf(s: string, c: char): (r: int)
    ensures -1 <= r < |s|
    ensures r == -1 <==> c !in s
    ensures r >= 0 ==> s[r] == c && c !in s[..r]
  {
    if s == "" then -1
    else if s[0] == c then 0
    else
      var k := IndexOf(s[1..], c);
      if k == -1 then -1 else assert s[..k + 1] == [s[0]] + s[1..][..k]; k + 1
  }

  /**
   * `[value.substr(0, value.indexOf('#') + 1), value.substr(value.indexOf('#') + 1)]`:
   * the id runs up to and including the first `#`, the path is the rest.
   */
  function SplitRef(value: string): (r: (string, string))
    ensures r.0 + r.1 == value
    ensures r.0 == "" <==> '#' !in value
    ensures r.0 != "" ==> r.0[|r.0| - 1] == '#' && '#' !in r.0[..|r.0| - 1]
  {
    var k := IndexOf(value, '#');
    assert value[..k + 1] + value[k + 1..] == value;
    (value[..k + 1], value[k + 1..])
  }

  /** The split is determined by the first `#`: a name without `#` followed by `#` is the id. */
  lemma SplitRefAt(name: string, path: string)
    requires '#' !in name
    ensures SplitRef(name + "#" + path) == (name + "#", path)
  {
    var value := name + "#" + path;
    var (id, rest) := SplitRef(value);
    assert value[|name|] == '#';
    assert value[..|name|] == name;
    assert id == value[..|id|];
  }

  /** `path.split('/')`: the pieces between the slashes, always at least one. */
  function SplitPath(path: string): (segs: seq<string>)
    ensures |segs| >= 1
    ensures forall i :: 0 <= i < |segs| ==> '/' !in segs[i]
    decreases |path|
  {
    var k := IndexOf(path, '/');
    if k == -1 then [path] else [path[..k]] + SplitPath(path[k + 1..])
  }

  /** `segs.join('/')`, the inverse of `SplitPath`. */
  function JoinPath(segs: seq<string>): string
    requires |segs| >= 1
  {
    if |segs| == 1 then segs[0] else segs[0] + "/" + JoinPath(segs[1..])
  }

  /** Splitting then joining gives back the path. */
  lemma {:induction false} JoinSplitPath(path: string)
    ensures JoinPath(SplitPath(path)) == path
    decreases |path|
  {
    var k := IndexOf(path, '/');
    if k != -1 {
      var head, tail := path[..k], path[k + 1..];
      SplitAtSlash(path, k);
      JoinSplitPath(tail);
      JoinCons(head, SplitPath(tail));
    }
  }

  lemma SplitAtSlash(path: string, k: int)
    requires k == IndexOf(path, '/') && k != -1
    ensures SplitPath(path) == [path[..k]] + SplitPath(path[k + 1..])
    ensures path == path[..k] + "/" + path[k + 1..]
  {
    SlashAt(path, k);
  }

  lemma SlashAt(path: string, k: int)
    requires 0 <= k < |path| && path[k] == '/'
    ensures path == path[..k] + "/" + path[k + 1..]
  {
    assert path == path[..k] + [path[k]] + path[k + 1..];
  }

  lemma JoinCons(head: string, rest: seq<string>)
    requires |rest| >= 1
    ensures JoinPath([head] + rest) == head + "/" + JoinPath(rest)
  {
    assert ([head] + rest)[1..] == rest;
  }

  /** Joining slash-free segments then splitting gives back the segments. */
  lemma {:induction false} SplitJoinPath(segs: seq<string>)
    requires |segs| >= 1
    requires forall i :: 0 <= i < |segs| ==> '/' !in segs[i]
    ensures SplitPath(JoinPath(segs)) == segs
  {
    if |segs| > 1 {
      var head, rest := segs[0], segs[1..];
      assert segs == [head] + rest;
      JoinCons(head, rest);
      var path := head + "/" + JoinPath(rest);
      FirstSlash(head, JoinPath(rest));
      SplitAtSlash(path, |head|);
      assert path[..|head|] == head && path[|head| + 1..] == JoinPath(rest);
      SplitJoinPath(rest);
    }
  }

  lemma FirstSlash(head: string, tail: string)
    requires '/' !in head
    ensures IndexOf(head + "/" + tail, '/') == |head|
  {
    var path := head + "/" + tail;
    assert path[|head|] == '/';
    assert path[..|head|] == head;
  }

  /**
   * The document a reference points into, as written in enjoi.js:35-42: with a
   * non-empty id and a truthy registry, `subSchemas[id]`, falling back to
   * `subSchemas[id without its '#']`; otherwise the root schema. The chosen
   * document must be truthy.
   */
  function RefSchemaAsWritten(ctx: Context, value: string): (r: Result<Json, Error>)
    ensures r.Ok? ==> Truthy(r.value)
    ensures r.Err? ==> r.error == MissingReference(value)
  {
    var id := SplitRef(value).0;
    var refschema :=
      if id != "" && Present(ctx.subSchemas) then
        var first := Prop(ctx.subSchemas.value, id);
        if Present(first) then first else Prop(ctx.subSchemas.value, id[..|id| - 1])
      else Some(ctx.schema);
    if Present(refschema) then Ok(refschema.value) else Err(MissingReference(value))
  }

  /**
   * The document a reference points into under the evidently intended reading
   * of enjoi.js:32-36: a bare `#<path>` reference is in-document even when a
   * registry is supplied; every other reference is looked up exactly as in
   * `RefSchemaAsWritten`.
   */
  function RefSchemaCorrected(ctx: Context, value: string): (r: Result<Json, Error>)
    ensures r.Ok? ==> Truthy(r.value)
    ensures r.Err? ==> r.error == MissingReference(value)
  {
    var id := SplitRef(value).0;
    var refschema :=
      if |id| > 1 && Present(ctx.subSchemas) then
        var first := Prop(ctx.subSchemas.value, id);
        if Present(first) then first else Prop(ctx.subSchemas.value, id[..|id| - 1])
      else Some(ctx.schema);
    if Present(refschema) then Ok(refschema.value) else Err(MissingReference(value))
  }

  /** One step of the path walk: `typeof fragment === 'object' && fragment[key]`. */
  function Step(fragment: Json, key: string): (r: Option<Json>)
    ensures !IsObject(fragment) ==> r == Some(Bool(false))
  {
    if IsObject(fragment) then Prop(fragment, key) else Some(Bool(false))
  }

  /** The path walk of enjoi.js:47-49: step while segments remain and the fragment is truthy. */
  function Walk(fragment: Option<Json>, segs: seq<string>): (r: Option<Json>)
    ensures segs == [] || !Present(fragment) ==> r == fragment
    ensures segs != [] && Present(fragment) && !IsObject(fragment.value) ==> r == Some(Bool(false))
    decreases |segs|
  {
    if segs == [] || !Present(fragment) then fragment
    else Walk(Step(fragment.value, segs[0]), segs[1..])
  }

  /** The rest of `refresolver` once the target document is chosen: the walk of every path segment after the first. */
  function WalkFrom(refschema: Result<Json, Error>, value: string): (r: Result<Option<Json>, Error>)
    ensures r.Err? <==> refschema.Err?
    ensures refschema.Err? ==> r.error == refschema.error
    ensures refschema.Ok? && SplitPath(SplitRef(value).1)[1..] == [] ==> r == Ok(Some(refschema.value))
  {
    match refschema
    case Err(e) => Err(e)
    case Ok(doc) => Ok(Walk(Some(doc), SplitPath(SplitRef(value).1)[1..]))
  }

  /**
   * `refresolver(value)` as enjoi.js:29-52 computes it: the fragment a `$ref`
   * value names, `None` for `undefined`. A non-string value has no
   * `indexOf`/`substr` and throws.
   */
  function RefTarget(ctx: Context, ref: Json): (r: Result<Option<Json>, Error>)
    ensures !ref.Str? ==> r == Err(TypeError)
    ensures ref.Str? && r.Err? ==> r.error == MissingReference(ref.s)
  {
    if !ref.Str? then Err(TypeError) else WalkFrom(RefSchemaAsWritten(ctx, ref.s), ref.s)
  }

  /** `refresolver(value)` with the corrected choice of target document. */
  function RefTargetCorrected(ctx: Context, ref: Json): (r: Result<Option<Json>, Error>)
    ensures !ref.Str? ==> r == Err(TypeError)
    ensures ref.Str? && r.Err? ==> r.error == MissingReference(ref.s)
  {
    if !ref.Str? then Err(TypeError) else WalkFrom(RefSchemaCorrected(ctx, ref.s), ref.s)
  }

  /** `refresolver` as the source runs it: the path walk is a loop that updates `fragment`. */
  method ResolveRef(ctx: Context, ref: Json) returns (r: Result<Option<Json>, Error>)
    ensures r == RefTarget(ctx, ref)
  {
    if !ref.Str? {
      return Err(TypeError);
    }
    var value := ref.s;
    var path := SplitRef(value).1;
    var refschema := RefSchemaAsWritten(ctx, value);
    if refschema.Err? {
      return Err(refschema.error);
    }
    var fragment := Some(refschema.value);
    var paths := SplitPath(path);
    var i := 1;
    while i < |paths| && Present(fragment)
      invariant 1 <= i <= |paths|
      invariant Walk(fragment, paths[i..]) == Walk(Some(refschema.value), paths[1..])
    {
      assert paths[i..][0] == paths[i] && paths[i..][1..] == paths[i + 1..];
      fragment := if IsObject(fragment.value) then Prop(fragment.value, paths[i]) else Some(Bool(false));
      i := i + 1;
    }
    return Ok(fragment);
  }

  // Properties of reference resolution.

  /** A reference without `#`, or any reference when no registry is supplied, points into the root schema. */
  lemma RootIsTarget(ctx: Context, value: string)
    requires '#' !in value || !Present(ctx.subSchemas)
    requires IsObject(ctx.schema)
    ensures RefSchemaAsWritten(ctx, value) == Ok(ctx.schema)
    ensures RefSchemaCorrected(ctx, value) == Ok(ctx.schema)
  {
  }

  /**
   * A reference `name#path` with a registry, as written: `subSchemas['name#']`
   * when truthy, else `subSchemas['name']` when truthy, else the reference is
   * missing. With an empty `name` this is the lookup of `#` and then `""`.
   */
  lemma RegistryTarget(ctx: Context, name: string, path: string)
    requires '#' !in name && Present(ctx.subSchemas)
    ensures var registry, r := ctx.subSchemas.value, RefSchemaAsWritten(ctx, name + "#" + path);
      && (Present(Prop(registry, name + "#")) ==> r == Ok(Prop(registry, name + "#").value))
      && (!Present(Prop(registry, name + "#")) && Present(Prop(registry, name))
          ==> r == Ok(Prop(registry, name).value))
      && (!Present(Prop(registry, name + "#")) && !Present(Prop(registry, name))
          ==> r == Err(MissingReference(name + "#" + path)))
  {
    SplitRefAt(name, path);
    assert (name + "#")[..|name|] == name;
  }

  /** The two readings of the id differ only on a bare `#...` reference made while a registry is supplied. */
  lemma AsWrittenAgreesElsewhere(ctx: Context, value: string)
    requires SplitRef(value).0 != "#" || !Present(ctx.subSchemas)
    ensures RefSchemaAsWritten(ctx, value) == RefSchemaCorrected(ctx, value)
  {
  }

  /**
   * As written, a bare `#<path>` reference is looked up in a supplied registry
   * under the keys `"#"` and `""`, and fails when neither holds a schema;
   * the intended reading takes it from the root schema.
   */
  lemma BareFragmentWithRegistry(ctx: Context, path: string)
    requires IsObject(ctx.schema) && Present(ctx.subSchemas)
    requires !Present(Prop(ctx.subSchemas.value, "#")) && !Present(Prop(ctx.subSchemas.value, ""))
    ensures RefSchemaAsWritten(ctx, "#" + path) == Err(MissingReference("#" + path))
    ensures RefTarget(ctx, Str("#" + path)) == Err(MissingReference("#" + path))
    ensures RefSchemaCorrected(ctx, "#" + path) == Ok(ctx.schema)
  {
    SplitRefAt("", path);
    assert "" + "#" + path == "#" + path;
  }

  /**
   * Plain nested lookup through objects and arrays, key by key (a key of an
   * array is an index or `length`): what a JSON-pointer path denotes.
   */
  function Descend(doc: Json, keys: seq<string>): (r: Option<Json>)
    decreases |keys|
  {
    if keys == [] then Some(doc)
    else if IsObject(doc) && Prop(doc, keys[0]).Some? then Descend(Prop(doc, keys[0]).value, keys[1..])
    else None
  }

  /** Where the nested lookup succeeds, the truthiness-guarded walk reaches the same fragment. */
  lemma {:induction false} WalkDescends(doc: Json, keys: seq<string>)
    requires Descend(doc, keys).Some?
    ensures Walk(Some(doc), keys) == Descend(doc, keys)
    decreases |keys|
  {
    if keys != [] {
      WalkDescends(Prop(doc, keys[0]).value, keys[1..]);
    }
  }

  /** Walking a path in two pieces is walking the first, then the second from wherever the first stopped. */
  lemma {:induction false} WalkAppend(fragment: Option<Json>, a: seq<string>, b: seq<string>)
    ensures Walk(fragment, a + b) == Walk(Walk(fragment, a), b)
    decreases |a|
  {
    if a == [] {
      assert a + b == b;
    } else if Present(fragment) {
      assert (a + b)[0] == a[0] && (a + b)[1..] == a[1..] + b;
      WalkAppend(Step(fragment.value, a[0]), a[1..], b);
    }
  }

  /** A key missing from the object or array reached after `prefix` stops the walk there with `undefined`. */
  lemma WalkStopsAtMissingKey(doc: Json, prefix: seq<string>, key: string, rest: seq<string>)
    requires Descend(doc, prefix).Some?
    requires IsObject(Descend(doc, prefix).value) && Prop(Descend(doc, prefix).value, key).None?
    ensures Walk(Some(doc), prefix + [key] + rest) == None
  {
    WalkDescends(doc, prefix);
    WalkAppend(Some(doc), prefix, [key] + rest);
    assert prefix + [key] + rest == prefix + ([key] + rest);
  }

  /** A truthy non-object reached after `prefix`, with path left to walk, stops the walk there with `false`. */
  lemma WalkStopsAtNonObject(doc: Json, prefix: seq<string>, key: string, rest: seq<string>)
    requires Descend(doc, prefix).Some?
    requires Truthy(Descend(doc, prefix).value) && !IsObject(Descend(doc, prefix).value)
    ensures Walk(Some(doc), prefix + [key] + rest) == Some(Bool(false))
  {
    WalkDescends(doc, prefix);
    WalkAppend(Some(doc), prefix, [key] + rest);
    assert prefix + [key] + rest == prefix + ([key] + rest);
    assert Walk(Some(Bool(false)), rest) == Some(Bool(false));
  }

  /**
   * An in-document reference `#/k1/.../kn` names the fragment reached by
   * looking up k1, ..., kn in the root schema: as written when no registry is
   * supplied, and under the corrected reading whether or not one is. With no
   * keys it is `#`, the whole root schema.
   */
  lemma InDocumentPointer(ctx: Context, keys: seq<string>)
    requires IsObject(ctx.schema)
    requires forall i :: 0 <= i < |keys| ==> '/' !in keys[i]
    requires Descend(ctx.schema, keys).Some?
    ensures RefTargetCorrected(ctx, Str("#" + JoinPath([""] + keys))) == Ok(Descend(ctx.schema, keys))
    ensures !Present(ctx.subSchemas) ==> RefTarget(ctx, Str("#" + JoinPath([""] + keys))) == Ok(Descend(ctx.schema, keys))
  {
    var path := JoinPath([""] + keys);
    PointerSplits(path);
    PointerSegments(keys);
    RootDocument(ctx, "#" + path);
    CorrectedTargetWalk(ctx, "#" + path, ctx.schema);
    if !Present(ctx.subSchemas) {
      RootIsTarget(ctx, "#" + path);
      TargetWalk(ctx, "#" + path, ctx.schema);
    }
    WalkDescends(ctx.schema, keys);
  }

  /** Under the corrected reading, a reference whose id is `#` or empty has the root schema as target document. */
  lemma RootDocument(ctx: Context, value: string)
    requires |SplitRef(value).0| <= 1 && IsObject(ctx.schema)
    ensures RefSchemaCorrected(ctx, value) == Ok(ctx.schema)
  {
  }

  /** A reference with nothing after its id names the whole target document. */
  lemma WholeTarget(ctx: Context, value: string, doc: Json)
    requires RefSchemaAsWritten(ctx, value) == Ok(doc) && SplitRef(value).1 == ""
    ensures RefTarget(ctx, Str(value)) == Ok(Some(doc))
  {
    assert SplitPath("") == [""];
  }

  /** The target of a string reference is the walk from the document the code chooses. */
  lemma TargetWalk(ctx: Context, value: string, doc: Json)
    requires RefSchemaAsWritten(ctx, value) == Ok(doc)
    ensures RefTarget(ctx, Str(value)) == Ok(Walk(Some(doc), SplitPath(SplitRef(value).1)[1..]))
  {
  }

  /** The same walk from the document the corrected reading chooses. */
  lemma CorrectedTargetWalk(ctx: Context, value: string, doc: Json)
    requires RefSchemaCorrected(ctx, value) == Ok(doc)
    ensures RefTargetCorrected(ctx, Str(value)) == Ok(Walk(Some(doc), SplitPath(SplitRef(value).1)[1..]))
  {
  }

  /** `#path` has the id `#`. */
  lemma PointerSplits(path: string)
    ensures SplitRef("#" + path) == ("#", path)
  {
    SplitRefAt("", path);
    assert "" + "#" + path == "#" + path;
  }

  /** The segments of a pointer built from `/`-free keys are an empty one, then the keys. */
  lemma PointerSegments(keys: seq<string>)
    requires forall i :: 0 <= i < |keys| ==> '/' !in keys[i]
    ensures SplitPath(JoinPath([""] + keys))[1..] == keys
  {
    var segs := [""] + keys;
    forall i | 0 <= i < |segs| ensures '/' !in segs[i] {
      if i > 0 { assert segs[i] == keys[i - 1]; }
    }
    SplitJoinPath(segs);
  }

  /**
   * `#` alone names the whole root schema under the corrected reading. As
   * written, it does so only without a registry; with a registry it is looked
   * up under `"#"` and `""` (`WholeRegistryDocument` with an empty name) and
   * is missing when neither entry is truthy.
   */
  lemma WholeRootDocument(ctx: Context)
    requires IsObject(ctx.schema)
    ensures RefTargetCorrected(ctx, Str("#")) == Ok(Some(ctx.schema))
    ensures !Present(ctx.subSchemas) ==> RefTarget(ctx, Str("#")) == Ok(Some(ctx.schema))
    ensures Present(ctx.subSchemas) && !Present(Prop(ctx.subSchemas.value, "#")) && !Present(Prop(ctx.subSchemas.value, ""))
            ==> RefTarget(ctx, Str("#")) == Err(MissingReference("#"))
  {
    InDocumentPointer(ctx, []);
    assert JoinPath([""]) == "";
    assert "#" + "" == "#";
    if Present(ctx.subSchemas) && !Present(Prop(ctx.subSchemas.value, "#")) && !Present(Prop(ctx.subSchemas.value, "")) {
      BareFragmentWithRegistry(ctx, "");
    }
  }

  /**
   * `name#` alone names the whole registry document found for `name`, under
   * `name#` or `name`; with an empty name these are the entries `#` and `""`.
   */
  lemma WholeRegistryDocument(ctx: Context, name: string)
    requires '#' !in name && Present(ctx.subSchemas)
    requires Present(Prop(ctx.subSchemas.value, name + "#")) || Present(Prop(ctx.subSchemas.value, name))
    ensures var registry := ctx.subSchemas.value;
      RefTarget(ctx, Str(name + "#")) ==
        Ok(if Present(Prop(registry, name + "#")) then Prop(registry, name + "#") else Prop(registry, name))
  {
    var registry := ctx.subSchemas.value;
    RegistryTarget(ctx, name, "");
    SplitRefAt(name, "");
    assert name + "#" + "" == name + "#";
    var doc := if Present(Prop(registry, name + "#")) then Prop(registry, name + "#").value else Prop(registry, name).value;
    WholeTarget(ctx, name + "#", doc);
  }
}
