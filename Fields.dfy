/** The values a keyed setter `handleInputChange(field, value)` and a partial
    update payload carry. The forms type `value` as `any`; every call site
    passes a value of the field's own kind, which `Fits` states. */
module Fields {
  import opened Wrappers

  datatype Value =
    | Absent                        // an optional column that holds no value
    | Text(s: string)
    | Flag(b: bool)
    | Items(xs: seq<string>)
    | Num(n: int)
    | Links(m: map<string, string>)

  /** The shape of one record field. Optional text and numbers may be absent
      in a stored row; a setter always writes a present value. */
  datatype Kind = TextKind | OptionalText | FlagKind | ListKind | OptionalNumber | LinksKind

  predicate Fits(k: Kind, v: Value) {
    match k
    case TextKind => v.Text?
    case OptionalText => v.Text?
    case FlagKind => v.Flag?
    case ListKind => v.Items?
    case OptionalNumber => v.Num?
    case LinksKind => v.Links?
  }

  /** The value an optional text column shows through `Get`. */
  function OptionalTextValue(o: Option<string>): (v: Value)
    ensures v == Absent <==> o.None?
    ensures o.Some? ==> v == Text(o.value)
  {
    match o
    case None => Absent
    case Some(s) => Text(s)
  }

  /** The value an optional number column shows through `Get`. */
  function OptionalNumberValue(o: Option<int>): (v: Value)
    ensures v == Absent <==> o.None?
    ensures o.Some? ==> v == Num(o.value)
  {
    match o
    case None => Absent
    case Some(n) => Num(n)
  }

  /** `x || ''`: an absent or empty optional text becomes `''`, any other
      text stays. */
  function OrEmpty(o: Option<string>): (s: string)
    ensures o.Some? ==> s == o.value
    ensures o.None? ==> s == ""
  {
    o.GetOr("")
  }
}
