/**
 * The validation rules the compiler produces. The validation library's rule
 * objects are foreign; a `Rule` records only what the compiler sets on them:
 * which builder made it, the refinements applied and the `required()` flag.
 */
module Rules {
  import opened Wrappers
  import opened Json

  /** Which rule builder produced a rule, with the refinements applied to it. */
  datatype Kind =
      /** `joi.any()`, restricted by `.valid(values)` when `valid` is present (`values` as passed, an array or a single value). */
    | AnyOf(valid: Option<Json>)
      /** `joi.boolean()`. */
    | Boolean
      /** `joi.number()`, with `.integer()`, `.min(min)` and `.max(max)` when set. */
    | Number(integer: bool, min: Option<real>, max: Option<real>)
      /** `joi.string()`, with `.regex(new RegExp(pattern))`, `.min` and `.max` when set. */
    | String(pattern: Option<Json>, minLength: Option<real>, maxLength: Option<real>)
      /** `joi.array().includes(items)`, with `.min`, `.max` and `.unique()` when set. */
    | Array(items: Rule, minItems: Option<real>, maxItems: Option<real>, unique: bool)
      /** `joi.object(keys)`, with `.min` and `.max` on the number of keys when set. */
    | Object(keys: Option<map<string, Rule>>, minKeys: Option<real>, maxKeys: Option<real>)

  /** A rule, and whether `.required()` was applied to it. */
  datatype Rule = Rule(kind: Kind, required: bool)

  /** What a compile call throws. */
  datatype Error =
      /** The schema argument is not an object (an assertion). */
    | InvalidSchema
      /** The registry argument is present but not an object (an assertion). */
    | InvalidSubSchemas
      /** A property read on `undefined` or `null`, or a string method called on a non-string. */
    | TypeError
      /** A `$ref` whose target document cannot be found (an assertion). */
    | MissingReference(ref: string)
      /** A truthy `type` that names none of the six schema types (an assertion). */
    | UnresolvedType(declared: Option<Json>)
      /** The call stack overflowing on a `$ref` chain that never ends. */
    | StackOverflow
}
