/** Values shared by every part of the model: an optional value, and the
    JavaScript values that travel as payloads, request bodies and options. */
module Values {

  datatype Option<+T> = None | Some(value: T)

  /** A JavaScript value as far as this library handles it: the result of
      `request.json()`, a job payload, or a field of the publish options.
      `Undefined` is what reading an absent property yields. */
  datatype Value =
    | Undefined
    | Null
    | Bool(b: bool)
    | Num(n: real)
    | Str(s: string)
    | Arr(items: seq<Value>)
    | Obj(fields: map<string, Value>)

  /** A plain object with named fields (the publish options and the built request). */
  type Record = map<string, Value>

  /** The fields that `...o` copies: none when `o` is `undefined`. */
  function Spread(o: Option<Record>): Record
  {
    if o.Some? then o.value else map[]
  }
}
