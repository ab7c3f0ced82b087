/**
 * The JavaScript values a parsed JSON schema document is made of, together
 * with the handful of JavaScript semantics the compiler relies on:
 * truthiness, `typeof`, own-property access (`v[key]`) and `Object.keys`.
 */
module Json {
  import opened Wrappers

  /**
   * A JSON value as JavaScript sees it after `JSON.parse`. An object keeps the
   * order in which `Object.keys` enumerates it in `keys`; its properties are
   * in `fields`. For an object built by `JSON.parse`, `keys` lists every key
   * of `fields` exactly once (see `WellFormedObject`).
   */
  datatype Json =
    | Null
    | Bool(b: bool)
    | Num(n: real)
    | Str(s: string)
    | Arr(items: seq<Json>)
    | Obj(keys: seq<string>, fields: map<string, Json>)

  /** `keys` enumerates the properties of the object exactly once each. */
  predicate WellFormedObject(v: Json)
    requires v.Obj?
  {
    && (forall i, j :: 0 <= i < j < |v.keys| ==> v.keys[i] != v.keys[j])
    && v.fields.Keys == set k | k in v.keys
  }

  /** JavaScript truthiness: `null`, `false`, `0` and `""` are falsy, every object and array is truthy. */
  predicate Truthy(v: Json) {
    match v
    case Null => false
    case Bool(b) => b
    case Num(n) => n != 0.0
    case Str(s) => s != ""
    case Arr(_) => true
    case Obj(_, _) => true
  }

  /** Truthiness of a possibly absent value: `undefined` is falsy. */
  predicate Present(v: Option<Json>) {
    v.Some? && Truthy(v.value)
  }

  /** `thing.isObject(v)`: `typeof v === 'object' && v !== null`, so arrays count as objects. */
  predicate IsObject(v: Json) {
    v.Obj? || v.Arr?
  }

  /** `v.name` for a schema keyword `name` when it is a number (`thing.isNumber`), and `None` otherwise. */
  function NumberAt(v: Json, name: string): (r: Option<real>)
    ensures r.Some? <==> Field(v, name).Some? && Field(v, name).value.Num?
    ensures r.Some? ==> Field(v, name) == Some(Num(r.value))
  {
    match Field(v, name)
    case Some(Num(n)) => Some(n)
    case _ => None
  }

  predicate IsDigit(c: char) {
    '0' <= c <= '9'
  }

  predicate AllDigits(s: string) {
    forall k :: 0 <= k < |s| ==> IsDigit(s[k])
  }

  function DigitChar(d: nat): (c: char)
    requires d < 10
    ensures IsDigit(c)
  {
    ('0' as int + d) as char
  }

  function DigitsValue(s: string): nat
    requires AllDigits(s)
  {
    if s == "" then 0
    else 10 * DigitsValue(s[..|s| - 1]) + (s[|s| - 1] as int - '0' as int)
  }

  /** The property name of array index `i`: its decimal numeral. */
  function IndexKey(i: nat): (s: string)
    ensures s != "" && AllDigits(s)
    ensures s[0] == '0' ==> i == 0 && |s| == 1
  {
    if i < 10 then [DigitChar(i)] else IndexKey(i / 10) + [DigitChar(i % 10)]
  }

  /**
   * The array index a property name denotes: a decimal numeral without
   * leading zeros. Any other name (including "length") is not an index.
   */
  function ParseIndex(s: string): (r: Option<nat>)
    ensures r.Some? ==> s != "" && IsDigit(s[0])
  {
    if s == "" || !IsDigit(s[0]) || (s[0] == '0' && |s| > 1) || !AllDigits(s) then None else Some(DigitsValue(s))
  }

  lemma {:induction false} DigitsValueOfIndexKey(i: nat)
    ensures DigitsValue(IndexKey(i)) == i
  {
    if i >= 10 {
      var s := IndexKey(i);
      assert s[..|s| - 1] == IndexKey(i / 10);
      DigitsValueOfIndexKey(i / 10);
    }
  }

  /** Every index names itself: parsing the numeral of `i` gives back `i`. */
  lemma ParseIndexKey(i: nat)
    ensures ParseIndex(IndexKey(i)) == Some(i)
  {
    DigitsValueOfIndexKey(i);
  }

  lemma {:induction false} IndexKeyOfDigits(s: string)
    requires s != "" && AllDigits(s) && (s[0] != '0' || |s| == 1)
    ensures IndexKey(DigitsValue(s)) == s
  {
    var n := DigitsValue(s);
    var init, d := s[..|s| - 1], s[|s| - 1] as int - '0' as int;
    if init == "" {
      assert s == [s[0]];
    } else {
      assert init[0] == s[0];
      IndexKeyOfDigits(init);
      var m := DigitsValue(init);
      assert m != 0 by {
        assert IndexKey(m)[0] == init[0] != '0';
        assert IndexKey(0) == "0";
      }
      assert n / 10 == m && n % 10 == d;
      assert s == init + [s[|s| - 1]];
    }
  }

  /** Only numerals name indices: a name that parses as `i` is the numeral of `i`. */
  lemma IndexKeyOfParse(s: string)
    requires ParseIndex(s).Some?
    ensures IndexKey(ParseIndex(s).value) == s
  {
    IndexKeyOfDigits(s);
  }

  /**
   * `v[key]` for an own property: an object's field, an array element or a
   * string's character by index, or an array's or string's `length`.
   * `None` is `undefined`. Numbers, booleans and `null` have no own properties.
   */
  function Prop(v: Json, key: string): (r: Option<Json>)
    ensures r.Some? && v.Obj? ==> r.value < v
    ensures r.Some? && v.Arr? && key != "length" ==> r.value < v
  {
    match v
    case Obj(_, fields) => if key in fields then Some(fields[key]) else None
    case Arr(items) =>
      if key == "length" then Some(Num(|items| as real))
      else if ParseIndex(key).Some? && ParseIndex(key).value < |items| then Some(items[ParseIndex(key).value])
      else None
    case Str(s) =>
      if key == "length" then Some(Num(|s| as real))
      else if ParseIndex(key).Some? && ParseIndex(key).value < |s| then Some(Str([s[ParseIndex(key).value]]))
      else None
    case _ => None
  }

  /**
   * `v.name` for a schema keyword `name`, which is never an array index nor
   * `length`: only an object can have it (see `FieldIsProp`).
   */
  function Field(v: Json, name: string): (r: Option<Json>)
    ensures r.Some? ==> v.Obj? && r.value < v
  {
    if v.Obj? && name in v.fields then Some(v.fields[name]) else None
  }

  /** For a name that is neither an index nor `length`, the keyword read is the property read. */
  lemma FieldIsProp(v: Json, name: string)
    requires ParseIndex(name).None? && name != "length"
    ensures Field(v, name) == Prop(v, name)
  {
  }

  /** `Object.keys(v)` for an object or an array: the object's keys, or the array's indices in order. */
  function OwnKeys(v: Json): (ks: seq<string>)
    requires IsObject(v)
    ensures v.Obj? ==> ks == v.keys
    ensures v.Arr? ==> |ks| == |v.items|
    ensures v.Arr? ==> forall k :: k in ks ==> k != "length"
  {
    match v
    case Obj(keys, _) => keys
    case Arr(items) => IndexKeys(|items|)
  }

  /** The numerals of `0` to `n - 1`, in order. */
  function IndexKeys(n: nat): (ks: seq<string>)
    ensures |ks| == n
    ensures forall k :: k in ks ==> k != "length"
  {
    if n == 0 then [] else IndexKeys(n - 1) + [IndexKey(n - 1)]
  }

  /** The `i`-th index name is the numeral of `i`. */
  lemma {:induction false} IndexKeysAt(n: nat)
    ensures forall i :: 0 <= i < n ==> IndexKeys(n)[i] == IndexKey(i)
  {
    if n > 0 {
      IndexKeysAt(n - 1);
    }
  }

  /** An array's own keys are the numerals of its indices, in order. */
  lemma ArrayKeys(v: Json)
    requires v.Arr?
    ensures forall i :: 0 <= i < |OwnKeys(v)| ==> OwnKeys(v)[i] == IndexKey(i)
  {
    IndexKeysAt(|v.items|);
  }

  /** Every key `Object.keys` reports reads back a value (for a well-formed object). */
  lemma OwnKeysReadable(v: Json, k: string)
    requires IsObject(v) && (v.Obj? ==> WellFormedObject(v))
    requires k in OwnKeys(v)
    ensures Prop(v, k).Some?
  {
    if v.Arr? {
      ArrayKeys(v);
      var i :| 0 <= i < |OwnKeys(v)| && OwnKeys(v)[i] == k;
      ParseIndexKey(i);
    }
  }
}
