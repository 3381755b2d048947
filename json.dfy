/** The JSON values the server reads from and sends to clients, and the property names
    every JavaScript object the server indexes into has without being told. */
module Json {

  datatype Option<T> = None | Some(value: T)

  /** A JSON value. Numbers are integers here; every number the server itself
      writes (the default configuration) is one. */
  datatype Value =
    | Null
    | Bool(b: bool)
    | Num(n: int)
    | Str(s: string)
    | Arr(items: seq<Value>)
    | Obj(fields: map<string, Value>)

  /** A JSON object: field name to value. */
  type Object = map<string, Value>

  /** The names a plain JavaScript object inherits from Object.prototype. Looking one of
      them up in `{}` or in a parsed JSON object yields a truthy value. */
  const ObjectPrototypeKeys: set<string> :=
    {"constructor", "toString", "toLocaleString", "valueOf", "hasOwnProperty",
     "isPrototypeOf", "propertyIsEnumerable", "__proto__", "__defineGetter__",
     "__defineSetter__", "__lookupGetter__", "__lookupSetter__"}
}
