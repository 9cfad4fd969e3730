/** A model of the parts of Qt's JSON classes (QJsonValue, QJsonArray,
    QJsonObject) that the workspace and agent settings serialisation use.
    A QJsonObject is a map from keys to values; reading a key that is absent
    yields an undefined value, and every conversion falls back to Qt's
    default ("" for strings, 0 for ints, empty for arrays and objects) when
    the value has another type. */
module QtJson {

  /** Signed 32-bit C++ `int`. */
  type Int32 = x: int | -0x8000_0000 <= x < 0x8000_0000

  const Int32Max: int := 0x7fff_ffff

  /** A JSON number is a double in Qt; only its value matters here, so it is
      kept as a real number (no rounding is modelled). */
  datatype JsonValue =
    | Undefined
    | Null
    | Bool(b: bool)
    | Number(n: real)
    | String(s: string)
    | Array(items: seq<JsonValue>)
    | Object(fields: map<string, JsonValue>)

  type JsonObject = map<string, JsonValue>

  /** `QJsonObject::operator[](key) const`: the stored value, or undefined. */
  function Get(obj: JsonObject, key: string): (v: JsonValue)
    ensures key !in obj ==> v == Undefined
    ensures key in obj ==> v == obj[key]
  {
    if key in obj then obj[key] else Undefined
  }

  /** `QJsonValue::toString()`: the string, or "" for any other type. */
  function ToString(v: JsonValue): (s: string)
    ensures !v.String? ==> s == ""
  {
    if v.String? then v.s else ""
  }

  /** A number that `toInt()` accepts: whole and within the range of a 32-bit int. */
  predicate IsInt32(n: real)
  {
    n == n.Floor as real && -0x8000_0000 <= n.Floor <= Int32Max
  }

  /** `QJsonValue::toInt()`: the value when it is a whole number that fits a
      32-bit int, and the default 0 otherwise. */
  function ToInt(v: JsonValue): (i: Int32)
    ensures v.Number? && IsInt32(v.n) ==> i as real == v.n
    ensures !(v.Number? && IsInt32(v.n)) ==> i == 0
  {
    if v.Number? && IsInt32(v.n) then v.n.Floor else 0
  }

  /** `QJsonValue::toArray()`: the items, or an empty array. */
  function ToArray(v: JsonValue): (a: seq<JsonValue>)
    ensures !v.Array? ==> a == []
  {
    if v.Array? then v.items else []
  }

  /** `QJsonValue::toObject()`: the fields, or an empty object. */
  function ToObject(v: JsonValue): (o: JsonObject)
    ensures !v.Object? ==> o == map[]
  {
    if v.Object? then v.fields else map[]
  }

  /** The JSON array built by appending one string value per message, in order. */
  function StringsToJson(h: seq<string>): (a: seq<JsonValue>)
    ensures |a| == |h|
  {
    if h == [] then [] else StringsToJson(h[..|h| - 1]) + [String(h[|h| - 1])]
  }

  /** The messages read back from a JSON array, one `toString()` per item. */
  function JsonToStrings(a: seq<JsonValue>): (h: seq<string>)
    ensures |h| == |a|
  {
    if a == [] then [] else JsonToStrings(a[..|a| - 1]) + [ToString(a[|a| - 1])]
  }

  /** Each item of the built array is the string value of the message at the same place. */
  lemma {:induction false} StringsToJsonAt(h: seq<string>, k: nat)
    requires k < |h|
    ensures StringsToJson(h)[k] == String(h[k])
  {
    if k < |h| - 1 {
      StringsToJsonAt(h[..|h| - 1], k);
    }
  }

  /** Reading back an array of strings gives exactly the messages that were written, in order. */
  lemma {:induction false} StringsRoundTrip(h: seq<string>)
    ensures JsonToStrings(StringsToJson(h)) == h
  {
    if h != [] {
      var init := h[..|h| - 1];
      StringsRoundTrip(init);
      var a := StringsToJson(h);
      assert a[..|a| - 1] == StringsToJson(init);
      assert h == init + [h[|h| - 1]];
    }
  }

  /** Converting an int to a JSON number and back gives the same int. */
  lemma IntRoundTrip(i: Int32)
    ensures ToInt(Number(i as real)) == i
  {
  }
}
