# enjoi: JSON-Schema to validation-rule compiler, modelled in Dafny

`enjoi(schema, subSchemas)` turns a JSON-Schema document into a tree of
validation rules in one recursive pass:

- it checks its two arguments (the schema must be an object, and the
  registry of external schemas, when given, must be one too);
- `resolve` dispatches a schema node on a truthy `type`, then a truthy
  `$ref`, then a truthy `enum`, and falls back to an unconstrained rule;
- `refresolver` splits a `$ref` at its first `#`, picks the target document
  (the registry entry for the id, with or without its trailing `#`, or the
  root schema) and walks the `/`-separated path into it;
- `resolvetype` picks a builder for each of the six type names, and the
  builders (`object`, `array`, `number`, `string`, with `resolveproperties`
  for object members) attach bounds, flags and nested rules.

The model has these parts:

- `wrappers.dfy` holds `Option` and `Result`.
- `json.dfy` holds JavaScript values and how the compiler reads them:
  - JSON values; `undefined` is `None`.
  - Truthiness, and `thing.isObject` / `thing.isNumber`.
  - Own-property reads, including array indices and `length`.
  - `Object.keys`, with canonical array-index names.
- `rules.dfy` holds the rule tree the validation library builds (only what
  the compiler sets on it) and the errors a compile call can throw.
- `refresolver.dfy` models `refresolver`.
  - The path walk is an imperative method (`ResolveRef`) proved equal to a
    specification function (`RefTarget`). Both choose the target document
    as the code does (`RefSchemaAsWritten`). `Resolve` and `Compile` use the
    function `RefTarget`.
  - `RefSchemaCorrected` and `RefTargetCorrected` give the evidently intended
    reading of a bare `#<path>` reference (see Findings). Only the lemmas
    about that reading use them.
  - Lemmas state what the walk reaches and how the target document is
    chosen.
- `enjoi.dfy` models the entry checks, `resolve`, `resolvetype`,
  `resolveproperties` and the builders.
  - Schema keywords are read with `Field`, which only an object can answer;
    `KeywordReads` proves this is the ordinary property read for every
    keyword the compiler uses.
  - The `forEach` over the properties is an imperative method
    (`ResolveProperties`) proved equal to `PropertiesOf`.
- `enjoi_lemmas.dfy` holds the properties of the compiler:
  - dispatch order;
  - what every builder attaches;
  - what the properties walk produces, and its first failure;
  - the entry checks;
  - that more `$ref` budget never changes a finished result;
  - that a self-referencing schema never finishes without a registry, and
    is a missing reference under a registry with no truthy `#` or `""`
    entry.
- `examples_compile.dfy` compiles two small schemas end to end:
  - one with a required string property;
  - the schema of the Findings row, under its registry, which fails as
    written.

Every function on the `resolve` recursion (`Resolve`, `Follow`, `FollowTarget`, `ResolveType`,
`ObjectRule`, `ArrayRule`, `PropertiesOf`, `PropertyRules`, `PropertyRule`)
and `Compile`, takes a `fuel` argument: the number of `$ref` hops allowed on
the current path. Running out gives `StackOverflow`, which stands for the
`RangeError` JavaScript throws when `resolve(refresolver(...))` recurses
without end.

Behaviour of `node_modules/enjoi/lib/enjoi.js` a reader may not expect, all
of which the model follows:

- A node with none of `type`, `$ref` or `enum` is not an error. The code
  only warns and returns `joi.any()` (lines 24-26), so `Resolve` returns
  `AnyOf(None)` (`EnumDispatch`, `AnyFallback`).
- The path of a `$ref` is always a string. The `Array.isArray(path)` branch
  (line 45) cannot fire, because `path` comes from `substr`.
- The id of a bare `#...` reference is `"#"`, not empty (line 32). With a
  registry supplied, such a reference is looked up in the registry under
  `"#"` and then `""` (line 36). It takes the first truthy entry, and fails
  when neither is truthy (`RegistryTarget` with an empty name,
  `BareFragmentWithRegistry`, `PointerWithRegistryFails`); see Findings.
- An unresolvable reference only raises the "Can not find schema reference"
  assertion when the registry lookup misses. A reference with an id but no
  registry at all walks the root schema instead (lines 35-40, `RootIsTarget`).
- `required` is not always an array of names. A string `required` is
  searched as a substring, and any other truthy `required` throws, because
  it has no `indexOf` (line 95, `IsRequired`).

## Model

| member | source | states |
|---|---|---|
| Json.NumberAt | node_modules/enjoi/lib/enjoi.js:136-137 | a bound is read exactly when the schema's keyword holds a number (`thing.isNumber`), and it is that number |
| Json.Prop | node_modules/enjoi/lib/enjoi.js:91 | a property read on an object, or on an array for a key other than `length`, yields a part of that value |
| Json.Field | node_modules/enjoi/lib/enjoi.js:12-20 | a keyword read succeeds only on an object and yields a part of it |
| Json.FieldIsProp | node_modules/enjoi/lib/enjoi.js:12-20 | for a key that is neither an array index nor `length`, a keyword read is the general property read |
| Json.OwnKeys | node_modules/enjoi/lib/enjoi.js:88 | `Object.keys` lists an object's keys in order, and one name per array element, never `length` |
| Json.ArrayKeys | node_modules/enjoi/lib/enjoi.js:88 | `Object.keys` of an array lists the index names `"0"`…`"n-1"` in order |
| Json.IndexKeysAt | node_modules/enjoi/lib/enjoi.js:88 | the `i`-th of the first `n` array-index names is the name of `i` |
| Json.IndexKeys | node_modules/enjoi/lib/enjoi.js:88 | the first `n` array-index names, in order, none of them `length` |
| Json.OwnKeysReadable | node_modules/enjoi/lib/enjoi.js:88-91 | every key `Object.keys` enumerates can be read back from the same value |
| Json.IndexKey | node_modules/enjoi/lib/enjoi.js:88 | an array-index name is a non-empty digit string with no leading zero |
| Json.ParseIndex | node_modules/enjoi/lib/enjoi.js:48 | a key read as an array index starts with a digit |
| Json.DigitsValueOfIndexKey | node_modules/enjoi/lib/enjoi.js:88 | the digits of the index name of `i` denote `i` |
| Json.ParseIndexKey | node_modules/enjoi/lib/enjoi.js:88-91 | the index name of `i` reads back as index `i` |
| Json.IndexKeyOfDigits | node_modules/enjoi/lib/enjoi.js:48 | a canonical digit string is the index name of the number it denotes |
| Json.IndexKeyOfParse | node_modules/enjoi/lib/enjoi.js:48 | every key that reads as an array index is that index's canonical name |
| RefResolver.IndexOf | node_modules/enjoi/lib/enjoi.js:32 | `indexOf('#')` is -1 exactly when there is no `#`, and otherwise the position of the first `#` |
| RefResolver.SplitRef | node_modules/enjoi/lib/enjoi.js:32-33 | id and path concatenate to the reference; the id is empty exactly when there is no `#`, and otherwise ends at the first `#` |
| RefResolver.SplitRefAt | node_modules/enjoi/lib/enjoi.js:32-33 | `name#path` with `#`-free `name` splits into `name#` and `path` |
| RefResolver.SplitPath | node_modules/enjoi/lib/enjoi.js:45 | `split('/')` yields at least one segment and no segment contains `/` |
| RefResolver.JoinSplitPath | node_modules/enjoi/lib/enjoi.js:45 | joining the segments of `split('/')` with `/` gives the path back |
| RefResolver.SplitJoinPath | node_modules/enjoi/lib/enjoi.js:45 | splitting `/`-joined `/`-free segments gives the segments back |
| RefResolver.RefSchemaAsWritten | node_modules/enjoi/lib/enjoi.js:35-42 | the target document, as the code picks it, is truthy, or the reference fails with a missing-reference error naming it |
| RefResolver.RefSchemaCorrected | node_modules/enjoi/lib/enjoi.js:35-42 | the same for the corrected choice, which sends a bare `#` id to the root schema |
| RefResolver.Walk | node_modules/enjoi/lib/enjoi.js:44-51 | the walk leaves a falsy or absent fragment, and an empty path, as it is; a truthy non-object with path left yields `false` |
| RefResolver.WalkFrom | node_modules/enjoi/lib/enjoi.js:35-51 | the walk fails exactly when the target document is missing, with its error; a reference with nothing after the id names the whole document |
| RefResolver.RefTarget | node_modules/enjoi/lib/enjoi.js:29-52 | `refresolver` on a non-string throws a `TypeError`; on a string it fails only with the missing-reference error naming that string |
| RefResolver.RefTargetCorrected | node_modules/enjoi/lib/enjoi.js:29-52 | the same for the corrected choice of target document |
| RefResolver.WholeTarget | node_modules/enjoi/lib/enjoi.js:35-51 | a reference with nothing after its id names the whole document the code chooses |
| RefResolver.Step | node_modules/enjoi/lib/enjoi.js:48 | a step from a non-object fragment yields `false` |
| RefResolver.ResolveRef | node_modules/enjoi/lib/enjoi.js:29-52 | the resolver's loop returns exactly what `RefTarget` specifies: the target document as the code chooses it (or its missing-reference error), then one property step per path segment after the first, stopping at the first falsy fragment |
| RefResolver.RootIsTarget | node_modules/enjoi/lib/enjoi.js:35-40 | with no `#` in the reference, or no registry, the target document is the root schema |
| RefResolver.RegistryTarget | node_modules/enjoi/lib/enjoi.js:35-42 | as written, for `name#path` with a registry (`name` possibly empty): the entry `name#` if truthy, else the entry `name` if truthy, else a missing-reference error |
| RefResolver.AsWrittenAgreesElsewhere | node_modules/enjoi/lib/enjoi.js:32-42 | the code as written and the corrected choice agree on every reference except a bare `#` id with a registry |
| RefResolver.BareFragmentWithRegistry | node_modules/enjoi/lib/enjoi.js:32-42 | as written, `#path` with a registry lacking truthy `#` and `""` entries fails with a missing reference, and so does `refresolver`; the corrected choice returns the root |
| RefResolver.WalkDescends | node_modules/enjoi/lib/enjoi.js:44-51 | when every key is present along the way, through objects and arrays (by index or `length`), the walk reaches the nested member those keys name |
| RefResolver.WalkAppend | node_modules/enjoi/lib/enjoi.js:47-49 | walking a path in two pieces is walking the first, then the second from wherever the first stopped |
| RefResolver.WalkStopsAtMissingKey | node_modules/enjoi/lib/enjoi.js:47-49 | a key missing from the object or array reached after any prefix of the path ends the walk in `undefined` |
| RefResolver.WalkStopsAtNonObject | node_modules/enjoi/lib/enjoi.js:47-49 | a truthy non-object reached after any prefix of the path, with path left, ends the walk in `false` |
| RefResolver.InDocumentPointer | node_modules/enjoi/lib/enjoi.js:29-52 | `#/k1/…/kn` reaches the member of the root schema at keys `k1…kn`: as written when no registry is supplied, and under the corrected reading with or without one |
| RefResolver.RootDocument | node_modules/enjoi/lib/enjoi.js:35-40 | a reference with an empty or bare `#` id takes the root schema as its target document (corrected choice) |
| RefResolver.TargetWalk | node_modules/enjoi/lib/enjoi.js:44-51 | once the code has chosen the target document, the result is the walk of the path segments after the first |
| RefResolver.CorrectedTargetWalk | node_modules/enjoi/lib/enjoi.js:44-51 | the same from the document the corrected reading chooses |
| RefResolver.PointerSplits | node_modules/enjoi/lib/enjoi.js:32-33 | `#path` splits into the id `#` and `path` |
| RefResolver.PointerSegments | node_modules/enjoi/lib/enjoi.js:45-47 | splitting `/k1/…/kn` (keys free of `/`) and skipping the first segment gives `k1…kn` back |
| RefResolver.WholeRootDocument | node_modules/enjoi/lib/enjoi.js:32-51 | as written, `#` alone resolves to the whole root schema when no registry is supplied, and is a missing reference when a registry has no truthy `#` or `""` entry; under the corrected reading it is the root schema either way |
| RefResolver.WholeRegistryDocument | node_modules/enjoi/lib/enjoi.js:35-51 | `name#` resolves to the registry entry `name#`, or to the entry `name` when that one is falsy; for an empty name, `#` resolves to the entry `#` or `""` |
| Enjoi.Resolve | node_modules/enjoi/lib/enjoi.js:11-27 | a resolved node is never marked required: only the property walk marks rules |
| Enjoi.Follow | node_modules/enjoi/lib/enjoi.js:16-17 | following a `$ref` with no hop left overflows, and a rule it yields is never marked required |
| Enjoi.FollowTarget | node_modules/enjoi/lib/enjoi.js:16-17 | a resolver error propagates, an `undefined` target is a `TypeError`, and a resolved rule is never marked required |
| Enjoi.ResolveType | node_modules/enjoi/lib/enjoi.js:54-79 | the same for the rule a type name selects |
| Enjoi.IsRequired | node_modules/enjoi/lib/enjoi.js:95 | the `required` test throws exactly when `required` is truthy but neither an array nor a string; for an array it is strict membership of the key |
| Enjoi.ResolveProperties | node_modules/enjoi/lib/enjoi.js:81-103 | the `forEach` loop returns exactly `PropertiesOf`: `undefined` unless `properties` is an object, else the rule map or the first error |
| Enjoi.PropertyRule | node_modules/enjoi/lib/enjoi.js:88-100 | one property: an unreadable key throws a `TypeError`; a rule is returned only when the `required` test does not throw, and it is required exactly when that test finds the key |
| Enjoi.PropertyRules | node_modules/enjoi/lib/enjoi.js:88-100 | a successful walk from key `i` keeps every entry stored so far and stores every key from `i` on |
| Enjoi.PropertiesOf | node_modules/enjoi/lib/enjoi.js:81-103 | `undefined` exactly when `properties` is absent or not an object; a successful result holds every own key of `properties` |
| Enjoi.ObjectRule | node_modules/enjoi/lib/enjoi.js:105-112 | the object builder yields an optional object rule |
| Enjoi.ArrayRule | node_modules/enjoi/lib/enjoi.js:114-127 | the array builder yields an optional array rule |
| Enjoi.NumberRule | node_modules/enjoi/lib/enjoi.js:129-140 | an optional number rule, integral exactly when `type` is `'integer'`, with `minimum`/`maximum` exactly when they are numbers |
| Enjoi.StringRule | node_modules/enjoi/lib/enjoi.js:142-150 | an optional string rule with the pattern exactly when `pattern` is truthy (the value as given), and `minLength`/`maxLength` exactly when they are numbers |
| Enjoi.Compile | node_modules/enjoi/lib/enjoi.js:7-9 | a missing or non-object schema fails the first assertion; a truthy non-object registry fails the second; a compiled rule is not required |
| EnjoiLemmas.TypeDispatch | node_modules/enjoi/lib/enjoi.js:54-79 | a truthy string `type` decides the rule even beside `$ref`/`enum`: boolean, number (integral exactly for `integer`), string, array or object rule, and any other name fails "Could not resolve type" |
| EnjoiLemmas.TypeMustBeAName | node_modules/enjoi/lib/enjoi.js:57-76 | a truthy `type` that is not a string matches no case and fails "Could not resolve type" |
| EnjoiLemmas.RefDispatch | node_modules/enjoi/lib/enjoi.js:16-18 | with no truthy `type`, a truthy `$ref` resolves its target with one hop less; an `undefined` target throws a `TypeError`; a resolver error propagates |
| EnjoiLemmas.EnumDispatch | node_modules/enjoi/lib/enjoi.js:20-22 | with neither `type` nor `$ref`, a truthy `enum` yields `any().valid(enum)` with the value as given |
| EnjoiLemmas.AnyFallback | node_modules/enjoi/lib/enjoi.js:24-26 | a node with none of the three keywords yields an unconstrained rule, except `null`, whose property read throws |
| EnjoiLemmas.PropertyRulesResult | node_modules/enjoi/lib/enjoi.js:88-100 | a successful walk from key `i` binds exactly the visited keys, each to its own property rule, and keeps every other entry |
| EnjoiLemmas.PropertyRulesFailure | node_modules/enjoi/lib/enjoi.js:88-100 | the walk from key `i` succeeds exactly when every property rule from key `i` on does |
| EnjoiLemmas.PropertyRulesFirstFailure | node_modules/enjoi/lib/enjoi.js:88-100 | a failed walk returns the error of the first property whose rule fails; every key before it succeeded |
| EnjoiLemmas.ContainsAt | node_modules/enjoi/lib/enjoi.js:95 | the string form of the `required` test finds the key exactly when the key occurs at some position of the string |
| EnjoiLemmas.PropertyFailureCause | node_modules/enjoi/lib/enjoi.js:88-97 | every key `Object.keys` lists reads back, so a property fails only with the error of resolving its schema or of the `required` test |
| EnjoiLemmas.PropertyRuleMarking | node_modules/enjoi/lib/enjoi.js:91-97 | a property rule is its schema's resolved rule, marked required exactly when the key is listed in `required` |
| EnjoiLemmas.PropertiesSpec | node_modules/enjoi/lib/enjoi.js:81-103 | `undefined` unless `properties` is an object; otherwise success exactly when every property resolves, with one entry per own key, each the resolved rule, required exactly when listed |
| EnjoiLemmas.BuilderRefinements | node_modules/enjoi/lib/enjoi.js:105-150 | every builder attaches each bound exactly when its keyword is a number, `integer`, `unique` and `pattern` exactly when their keywords say so, and the nested `items`/`properties` rules; a typed node never yields `any` |
| EnjoiLemmas.EntryChecks | node_modules/enjoi/lib/enjoi.js:7-9 | the two argument assertions in order, and otherwise the result is `resolve(schema)` |
| EnjoiLemmas.KeywordReads | node_modules/enjoi/lib/enjoi.js:12-20 | every keyword the compiler reads is an ordinary property read of the schema node |
| EnjoiLemmas.ResolveFuel | node_modules/enjoi/lib/enjoi.js:11-27 | a resolution that does not overflow gives the same result under any larger `$ref` budget |
| EnjoiLemmas.RefFuel | node_modules/enjoi/lib/enjoi.js:16-17 | the same for a node resolved through its `$ref` |
| EnjoiLemmas.ResolveTypeFuel | node_modules/enjoi/lib/enjoi.js:54-79 | the same for `resolvetype` |
| EnjoiLemmas.ArrayRuleFuel | node_modules/enjoi/lib/enjoi.js:114-127 | the same for `array` |
| EnjoiLemmas.PropertiesOfFuel | node_modules/enjoi/lib/enjoi.js:81-103 | the same for `resolveproperties` |
| EnjoiLemmas.PropertyRulesFuel | node_modules/enjoi/lib/enjoi.js:88-100 | the same for the property walk from any key on |
| EnjoiLemmas.PropertyRuleFuel | node_modules/enjoi/lib/enjoi.js:91-99 | the same for one property |
| EnjoiLemmas.CompileFuelMonotone | node_modules/enjoi/lib/enjoi.js:7-27 | a compile that does not overflow gives the same result under any larger budget |
| EnjoiLemmas.SelfReferenceOverflows | node_modules/enjoi/lib/enjoi.js:16-17 | `{"$ref": "#"}` compiled without a registry overflows under every budget |
| EnjoiLemmas.SelfReferenceResolves | node_modules/enjoi/lib/enjoi.js:16-17 | without a registry, resolving the root `{"$ref": "#"}` overflows under every budget |
| EnjoiLemmas.SelfReferenceMissing | node_modules/enjoi/lib/enjoi.js:16-17 | with a registry lacking truthy `#` and `""` entries, the root `{"$ref": "#"}` fails "Can not find schema reference" once a hop is allowed |
| CompileExamples.RequiredAProperty | node_modules/enjoi/lib/enjoi.js:91-97 | property `a` of string type with `minLength` 2, listed in `required`, becomes a required string rule of minimum length 2 |
| CompileExamples.RequiredProperty | node_modules/enjoi/lib/enjoi.js:105-112 | the object schema with that property compiles to an optional object rule whose only key is that required string rule |
| CompileExamples.PointerRefMissing | node_modules/enjoi/lib/enjoi.js:32-42 | as written, `#/definitions/x` under the registry `{"urn:a#": …}` is a missing reference, whatever the root schema |
| CompileExamples.PointerRefFails | node_modules/enjoi/lib/enjoi.js:16-17 | so `{"$ref": "#/definitions/x"}` fails to resolve once a hop is allowed |
| CompileExamples.PointerPropertyFails | node_modules/enjoi/lib/enjoi.js:91-92 | so does the property `n` holding that reference |
| CompileExamples.PointerPropertiesFail | node_modules/enjoi/lib/enjoi.js:88-100 | so does the properties walk whose only key is `n` |
| CompileExamples.PointerWithRegistryFails | node_modules/enjoi/lib/enjoi.js:7-42 | the schema of the Findings row, compiled with that registry, fails "Can not find schema reference" |
| CompileExamples.ArrayDescends | node_modules/enjoi/lib/enjoi.js:48 | the pointer `a/1` into `{"a": [1, 2]}` steps into the array and reaches `2` |
| CompileExamples.ArrayPointer | node_modules/enjoi/lib/enjoi.js:29-52 | so `#/a/1` with no registry resolves to that element |
| CompileExamples.PointerWithRegistryCorrected | node_modules/enjoi/lib/enjoi.js:29-52 | under the corrected reading the same reference names `definitions.x`, the integer schema, despite the registry |

## Left out

- The validation library is not modelled: what a rule accepts or rejects at validation time (including `unique`) is outside this model. A rule records only which builder made it and what was set on it.
- The validation library's own checks on the arguments the builders pass it while a rule is built are not modelled either: `joi.object(keys)`, `.min`/`.max`, `.includes`, `.regex` and `any().valid` may throw inside the compile call, but the model accepts every argument and, for example, always returns `Ok` for a numeric bound.
- `new RegExp(pattern)` is not modelled. A truthy `pattern` is kept as the value given, so the model never raises the error a malformed pattern throws at compile time.
- The `console.warn` call on the fallback path, and the `JSON.stringify` inside it, are left out (output only). The model does not capture a `JSON.stringify` that throws on a cyclic document.
- Properties inherited through the prototype chain (`constructor`, `toString`, `__proto__`, …) are not modelled. A property read sees only own members: object fields, array and string indices and `length`.
- Numbers are mathematical reals. There is no `NaN`, no infinities and no `-0`.
- Documents are trees. Object graphs shared or cyclic through JavaScript references are not modelled; cycles through `$ref` are.
- Resolve: the budget counts only `$ref` hops. A stack overflow from a very deeply nested schema without references is not modelled.
- The branch of `refresolver` that accepts a path given as an array is not modelled: `path` is always the string `substr` returns, so that branch is dead code.
- `joi.object(undefined)` and `joi.object({})` are different rules, and `Object(None, …)` and `Object(Some(map[]), …)` keep them apart. What the library does with each is not modelled.
- `joi.any().valid(enum)` keeps the `enum` value as given. How the library spreads an array of values is not modelled.

## Findings

| source | as written | input that shows it | evidently intended | confidence | as-written member | corrected member |
|---|---|---|---|---|---|---|
| node_modules/enjoi/lib/enjoi.js:32-36 | a reference starting with `#` gets the id `"#"`, so when a registry is supplied it is looked up as `subSchemas["#"]` and then `subSchemas[""]`, and when neither entry is truthy the "Can not find schema reference" assertion fails | schema `{"type": "object", "properties": {"n": {"$ref": "#/definitions/x"}}, "definitions": {"x": {"type": "integer"}}}` with registry `{"urn:a#": {"type": "string"}}` | an in-document reference `#/path` resolves against the root schema whether or not a registry is supplied | medium, not executed | CompileExamples.PointerWithRegistryFails | RefResolver.InDocumentPointer |
