/** Property lookup on a JavaScript object literal, which inherits from `Object.prototype`. */
module JsObject {

  /** Names of the properties every object literal inherits, including Annex B's accessors. */
  const PrototypeMembers: set<string> := {
    "constructor", "hasOwnProperty", "isPrototypeOf", "propertyIsEnumerable",
    "toLocaleString", "toString", "valueOf", "__proto__",
    "__defineGetter__", "__defineSetter__", "__lookupGetter__", "__lookupSetter__"
  }

  /** What `obj[key]` yields: an own value, an inherited member (always truthy), or `undefined`. */
  datatype Property<V> = Own(value: V) | Inherited(name: string) | Undefined

  function Get<V>(own: map<string, V>, key: string): (p: Property<V>)
    ensures p.Own? <==> key in own
    ensures p.Own? ==> p.value == own[key]
    ensures p.Inherited? <==> key !in own && key in PrototypeMembers
  {
    if key in own then Own(own[key])
    else if key in PrototypeMembers then Inherited(key)
    else Undefined
  }
}
