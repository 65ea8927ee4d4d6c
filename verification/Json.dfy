/** JSON values, and the two read operations the program uses on them. */
module Json {
  import opened Wrappers

  datatype Value =
    | Null
    | Bool(flag: bool)
    | Number(number: int)
    | Str(text: string)
    | Arr(items: seq<Value>)
    | Obj(fields: map<string, Value>)

  /** The member `key` of an object; nothing for any other value. */
  function Get(v: Value, key: string): Option<Value> {
    if v.Obj? && key in v.fields then Some(v.fields[key]) else None
  }

  /** The member reached by two keys in turn, as the pointer `/outer/inner` does. */
  function Pointer(v: Value, outer: string, inner: string): Option<Value> {
    match Get(v, outer)
    case Some(member) => Get(member, inner)
    case None => None
  }

  function AsBool(v: Option<Value>): Option<bool> {
    if v.Some? && v.value.Bool? then Some(v.value.flag) else None
  }

  function AsString(v: Option<Value>): Option<string> {
    if v.Some? && v.value.Str? then Some(v.value.text) else None
  }
}
