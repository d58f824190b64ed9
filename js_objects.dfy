/**
 * Reading a key of a JavaScript object literal used as a dictionary
 * (`record[key]`): besides the literal's own keys, every key that names a
 * member of `Object.prototype` reads as that member, which is truthy.
 */
module JsObjects {
  import opened Wrappers

  /** The members every object literal inherits from `Object.prototype`. */
  const PrototypeKeys: set<string> := {
    "constructor", "__proto__", "toString", "toLocaleString", "valueOf", "hasOwnProperty",
    "isPrototypeOf", "propertyIsEnumerable", "__defineGetter__", "__defineSetter__",
    "__lookupGetter__", "__lookupSetter__"
  }

  /** What `record[key]` gives: an own value, an inherited member, or `undefined`. */
  datatype Read<V> = Own(value: V) | Inherited | Missing

  function ReadKey<V>(own: map<string, V>, key: string): (r: Read<V>)
    ensures r.Own? <==> key in own
    ensures r.Own? ==> r.value == own[key]
    ensures r.Inherited? <==> key !in own && key in PrototypeKeys
  {
    if key in own then Own(own[key]) else if key in PrototypeKeys then Inherited else Missing
  }

  /**
   * The `name` property of an inherited member: "Object" for the
   * constructor, the method's own name for the other functions, and
   * `undefined` for `__proto__`, which is `Object.prototype` itself.
   */
  function InheritedName(key: string): (r: Option<string>)
    requires key in PrototypeKeys
    ensures r.None? <==> key == "__proto__"
  {
    if key == "__proto__" then None else if key == "constructor" then Some("Object") else Some(key)
  }
}
