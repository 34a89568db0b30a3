/**
 The values a channel can hold in its own data properties, and the plain
 records that structural equality (Jest's `toEqual`) compares them as.
 */
module Values {

  /** Identity of a channel instance (its object reference). */
  type Id = nat

  /** A property value that is not a channel. */
  datatype Prim =
    | Bool(b: bool)
    | Str(s: string)
      // an outside object that is not a channel, such as an injected API
      // client; it is compared by identity, so a tag stands for it
    | Foreign(tag: nat)

  /** What a data property of a channel may hold: a plain value or another channel. */
  datatype Value = Plain(p: Prim) | Ref(id: Id)

  /** The structure `toEqual` sees: primitives and records of own data properties. */
  datatype Json =
    | JBool(b: bool)
    | JStr(s: string)
    | JForeign(tag: nat)
    | JObject(fields: map<string, Json>)
      // stands where a reference cycle would make the expansion infinite
    | JCircular

  /** A primitive property value as `toEqual` sees it. */
  function JsonOf(p: Prim): Json
  {
    match p
    case Bool(b) => JBool(b)
    case Str(s) => JStr(s)
    case Foreign(t) => JForeign(t)
  }
}
