/**
 The decoded JSON body that the HTTP task hands on to the transform task,
 and the `dict.get(key, default)` lookup the transform is built from.
 */
module Json {

  /** A decoded JSON value. `Null` is what `None` stands for after decoding. */
  datatype Value =
    | Null
    | Bool(b: bool)
    | Number(n: real)
    | Str(s: string)
    | Array(items: seq<Value>)
    | Object(fields: map<string, Value>)

  /** The default every lookup of the transform falls back to: the empty string. */
  const Empty: Value := Str("")

  /** `m.get(key, default)`: the stored value when the key is present, whatever
      it is (including `Null`), and the default only when the key is absent. */
  function Get(m: map<string, Value>, key: string, default: Value): (v: Value)
    ensures key in m ==> v == m[key]
    ensures key !in m ==> v == default
  {
    if key in m then m[key] else default
  }
}
