/** `jsonb` values: payloads, outputs and option objects. */
module Json {
  datatype Json =
    | Null
    | Bool(b: bool)
    | Num(n: int)
    | Str(s: string)
    | Arr(items: seq<Json>)
    | Obj(fields: map<string, Json>)

  const EMPTY_OBJECT: Json := Obj(map[])

  function AsItems(v: Json): seq<Json> {
    if v.Arr? then v.items else [v]
  }

  /** The `||` operator of `jsonb`: objects merge with the right side winning,
      anything else is concatenated as arrays. */
  function Concat(a: Json, b: Json): Json {
    if a.Obj? && b.Obj? then Obj(a.fields + b.fields)
    else Arr(AsItems(a) + AsItems(b))
  }
}
