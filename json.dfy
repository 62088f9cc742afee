/** Decoded JSON values, also used for the loosely typed Python objects given to the provider. */
module Json {
  import opened Wrappers

  /** A value as `json.loads` returns it: `None`, `bool`, a number, `str`, `list` or `dict`. */
  datatype JValue =
    | JNull
    | JBool(b: bool)
    | JNum(n: int)
    | JStr(str: string)
    | JArr(items: seq<JValue>)
    | JObj(fields: map<string, JValue>)

  /** One subscript `v[k]`: a string key or an integer index. */
  datatype Key = Field(name: string) | Index(i: int)

  /** Python's `dict.get(key)`: `None` when the key is absent. */
  function Get(fields: map<string, JValue>, key: string): (r: Option<JValue>)
    ensures r.Some? <==> key in fields
    ensures r.Some? ==> r.value == fields[key]
  {
    if key in fields then Some(fields[key]) else None
  }

  /**
   * Python's subscript `v[k]` on a decoded JSON value; `None` is a raised
   * exception (a `KeyError`, `IndexError` or `TypeError`). Lists and strings
   * accept negative indices counted from the end; a string yields a string
   * of one character; a `dict` decoded from JSON has only string keys.
   */
  function Subscript(v: JValue, k: Key): (r: Option<JValue>)
    ensures v.JObj? && k.Field? ==> (r.Some? <==> k.name in v.fields)
    ensures v.JObj? && k.Field? && k.name in v.fields ==> r == Some(v.fields[k.name])
    ensures v.JArr? && k.Index? ==> (r.Some? <==> -|v.items| <= k.i < |v.items|)
    ensures v.JArr? && k.Index? && 0 <= k.i < |v.items| ==> r == Some(v.items[k.i])
    ensures v.JArr? && k.Index? && -|v.items| <= k.i < 0 ==> r == Some(v.items[|v.items| + k.i])
    ensures v.JStr? && k.Index? ==> (r.Some? <==> -|v.str| <= k.i < |v.str|)
    ensures v.JStr? && k.Index? && 0 <= k.i < |v.str| ==> r == Some(JStr([v.str[k.i]]))
    ensures v.JStr? && k.Index? && -|v.str| <= k.i < 0 ==> r == Some(JStr([v.str[|v.str| + k.i]]))
    ensures !(v.JObj? && k.Field?) && !(v.JArr? && k.Index?) && !(v.JStr? && k.Index?) ==> r == None
  {
    match (v, k)
    case (JObj(fields), Field(name)) =>
      Get(fields, name)
    case (JArr(items), Index(i)) =>
      if -|items| <= i < 0 then Some(items[|items| + i])
      else if 0 <= i < |items| then Some(items[i])
      else None
    case (JStr(s), Index(i)) =>
      if -|s| <= i < 0 then Some(JStr([s[|s| + i]]))
      else if 0 <= i < |s| then Some(JStr([s[i]]))
      else None
    case _ =>
      None
  }

  /** A chain of subscripts `v[k0][k1]...`, failing at the first one that raises. */
  function Lookup(v: JValue, path: seq<Key>): Option<JValue>
    decreases |path|
  {
    if path == [] then Some(v)
    else
      match Subscript(v, path[0])
      case None => None
      case Some(w) => Lookup(w, path[1..])
  }
}
