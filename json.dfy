/** JSON values as the site's scripts see them after `JSON.parse`, with the
    JavaScript reading rules the data layer relies on: truthiness, property
    access (where a missing property reads as `undefined`) and `.length`. */
module Json {

  datatype Option<+T> = None | Some(value: T)

  datatype Json =
    | JNull
    | JBool(b: bool)
    | JNum(n: real)
    | JStr(s: string)
    | JArr(items: seq<Json>)
    | JObj(fields: map<string, Json>)

  /** JavaScript truthiness: null, false, 0 and "" are falsy; arrays and
      objects (even empty ones) are truthy. */
  predicate Truthy(j: Json) {
    match j
    case JNull => false
    case JBool(b) => b
    case JNum(n) => n != 0.0
    case JStr(s) => s != ""
    case JArr(_) => true
    case JObj(_) => true
  }

  /** `v.key` on a non-null value: None stands for `undefined`. Arrays,
      strings, numbers and booleans carry none of the keys the data layer
      reads, so only objects answer. */
  function Get(v: Json, key: string): (r: Option<Json>)
    ensures r.Some? <==> v.JObj? && key in v.fields
  {
    if v.JObj? && key in v.fields then Some(v.fields[key]) else None
  }

  /** `!!v.key`: the property exists and is truthy. */
  predicate TruthyField(v: Json, key: string) {
    Get(v, key).Some? && Truthy(Get(v, key).value)
  }

  /** `Array.isArray(v.key)`. */
  predicate ArrayField(v: Json, key: string) {
    Get(v, key).Some? && Get(v, key).value.JArr?
  }

  /** `typeof v === 'object'` for a non-null value: arrays and objects. */
  predicate IsObjectLike(j: Json) {
    j.JArr? || j.JObj?
  }

  /** What `v.length` reads: the element or character count of an array or
      a string, an object's own `length` property, `undefined` for other
      non-null values, and a TypeError on null. A string's count is of
      characters (code points), where JavaScript counts UTF-16 units; the two
      differ only in size, never in whether the string is empty. */
  datatype Length = Value(v: Json) | Undefined | LengthThrows

  function JsLength(j: Json): (r: Length)
    ensures r.LengthThrows? <==> j == JNull
    ensures j.JArr? ==> r == Value(JNum(|j.items| as real))
    ensures j.JStr? ==> r == Value(JNum(|j.s| as real))
    ensures j.JObj? ==> r == if "length" in j.fields then Value(j.fields["length"]) else Undefined
    ensures j.JBool? || j.JNum? ==> r == Undefined
  {
    match j
    case JNull => LengthThrows
    case JArr(items) => Value(JNum(|items| as real))
    case JStr(s) => Value(JNum(|s| as real))
    case JObj(fields) => if "length" in fields then Value(fields["length"]) else Undefined
    case _ => Undefined
  }

  /** `v.length === 0`. */
  predicate LengthIsZero(j: Json) {
    JsLength(j) == Value(JNum(0.0))
  }

  /** A value whose length is strictly 0 is the empty string, the empty
      array, or an object whose own `length` is 0; every other truthy value
      has a non-zero length or none. */
  lemma LengthZeroIff(j: Json)
    ensures LengthIsZero(j) <==>
      j == JStr("") || j == JArr([]) || (j.JObj? && "length" in j.fields && j.fields["length"] == JNum(0.0))
  {
    if j.JArr? && LengthIsZero(j) {
      assert |j.items| == 0;
    }
    if j.JStr? && LengthIsZero(j) {
      assert |j.s| == 0;
    }
  }
}
