/** The values a reservation dict holds, with Python's truthiness and `dict.get`. */
module Values {
  import opened Wrappers
  import opened IsoDateTime

  /** `None`, a `str`, a `datetime`, a bson `ObjectId` (by its hex text) or a nested `dict`. */
  datatype Value = Null | Str(s: string) | Time(t: DateTime) | Id(hex: string) | Dict(entries: map<string, Value>)

  /** Python's `bool(v)`. */
  predicate Truthy(v: Value) {
    match v
    case Null => false
    case Str(s) => s != []
    case Time(_) => true
    case Id(_) => true
    case Dict(m) => m != map[]
  }

  /** `d.get(key, default)`. */
  function Get(d: map<string, Value>, key: string, default: Value): Value {
    if key in d then d[key] else default
  }

  /** An optional string as a dict value: `None` or the text. */
  function OptStr(o: Option<string>): (v: Value)
    ensures v.Null? <==> o.None?
    ensures o.Some? ==> v == Str(o.value)
  {
    match o
    case None => Null
    case Some(s) => Str(s)
  }
}
