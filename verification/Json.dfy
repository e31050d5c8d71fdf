/** JSON values, with the two ways the source reads an object member. */
module Json {
  import opened Prelude

  datatype Json =
    | Null
    | Bool(b: bool)
    | Num(n: int)
    | Str(s: string)
    | Arr(elems: seq<Json>)
    | Obj(members: map<string, Json>)
  {
    /** `value.get(key)`: `None` when this is no object or lacks the member. */
    function Get(key: string): Option<Json> {
      if Obj? && key in members then Some(members[key]) else None
    }

    /** `value[key]`: `null` when this is no object or lacks the member. */
    function At(key: string): Json { Get(key).GetOr(Null) }

    function AsStr(): Option<string> { if Str? then Some(s) else None }

    function Elements(): seq<Json> { if Arr? then elems else [] }

    /** `value.get(key).and_then(as_str)`. */
    function GetStr(key: string): Option<string> {
      match Get(key)
      case Some(v) => v.AsStr()
      case None => None
    }
  }
}
