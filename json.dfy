/**
 * JSON values as Qt's QJsonValue sees them, and the tolerant accessors
 * (`operator[]`, `toObject`, `toArray`, `toString`, `toInt`, `contains`)
 * through which the service reads every reply. A missing key or a value of
 * the wrong type never fails: it turns into an empty object, an empty array,
 * the empty string or 0.
 */
module Json {

  const MinInt32: int := -0x8000_0000
  const MaxInt32: int := 0x7fff_ffff

  /** A C++ `int`. */
  type Int32 = x: int | MinInt32 <= x <= MaxInt32

  /** `Undefined` is what Qt returns for a key that is not there. */
  datatype Json =
    | Undefined
    | Null
    | Bool(b: bool)
    | Number(n: int)
    | Str(s: string)
    | Array(items: seq<Json>)
    | Object(fields: map<string, Json>)

  /** `QJsonObject::operator[]` / `value` on a const object. */
  function Field(o: map<string, Json>, key: string): (v: Json)
    ensures key in o ==> v == o[key]
    ensures key !in o ==> v == Undefined
  {
    if key in o then o[key] else Undefined
  }

  /** `QJsonValue::toObject`: the fields of an object, otherwise the empty object. */
  function ToObject(v: Json): (o: map<string, Json>)
    ensures v.Object? ==> o == v.fields
    ensures !v.Object? ==> o == map[]
  {
    if v.Object? then v.fields else map[]
  }

  /** `QJsonValue::toArray`: the items of an array, otherwise the empty array. */
  function ToArray(v: Json): (a: seq<Json>)
    ensures v.Array? ==> a == v.items
    ensures !v.Array? ==> a == []
  {
    if v.Array? then v.items else []
  }

  /** `QJsonValue::toString`: the text of a string, otherwise the empty string. */
  function ToString(v: Json): (s: string)
    ensures v.Str? ==> s == v.s
    ensures !v.Str? ==> s == ""
  {
    if v.Str? then v.s else ""
  }

  /** `QJsonValue::toInt`: a whole number that fits an `int`, otherwise 0. */
  function ToInt(v: Json): (i: Int32)
    ensures v.Number? && MinInt32 <= v.n <= MaxInt32 ==> i == v.n
    ensures !(v.Number? && MinInt32 <= v.n <= MaxInt32) ==> i == 0
  {
    if v.Number? && MinInt32 <= v.n <= MaxInt32 then v.n else 0
  }

  /**
   * Reading `key` through the tolerant accessors gives a non-empty string
   * exactly when the object really holds that non-empty string there.
   */
  lemma StringFieldIsPresent(o: map<string, Json>, key: string, s: string)
    requires s != ""
    ensures ToString(Field(o, key)) == s <==> key in o && o[key] == Str(s)
  {
  }

  /**
   * A chain of `operator[]` and `toObject` calls: `v[k0].toObject()[k1]...`,
   * as the service writes every read of a nested reply field.
   */
  function Lookup(v: Json, keys: seq<string>): Json
    decreases |keys|
  {
    if keys == [] then v else Lookup(Field(ToObject(v), keys[0]), keys[1..])
  }

  /** The smallest document holding `leaf` under the chain of `keys`. */
  function Nest(keys: seq<string>, leaf: Json): (v: Json)
    ensures keys != [] ==> v.Object?
    decreases |keys|
  {
    if keys == [] then leaf else Object(map[keys[0] := Nest(keys[1..], leaf)])
  }

  /** Reading a chain of keys finds what was nested under it. */
  lemma {:induction false} LookupNest(keys: seq<string>, leaf: Json)
    ensures Lookup(Nest(keys, leaf), keys) == leaf
    decreases |keys|
  {
    if keys != [] {
      LookupNest(keys[1..], leaf);
    }
  }

  /** A chain of keys read from anything but an object gives Undefined. */
  lemma {:induction false} LookupOutsideObject(v: Json, keys: seq<string>)
    requires keys != [] && !v.Object?
    ensures Lookup(v, keys) == Undefined
  {
    LookupUndefined(keys[1..]);
  }

  /** Undefined stays Undefined along any chain of keys. */
  lemma {:induction false} LookupUndefined(keys: seq<string>)
    ensures Lookup(Undefined, keys) == Undefined
    decreases |keys|
  {
    if keys != [] {
      LookupUndefined(keys[1..]);
    }
  }
}
