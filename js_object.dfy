/** Reading a property of a JavaScript object literal such as
    `{ blue: "blue", yellow: "gold" }`: besides its own keys, every such object
    inherits the members of `Object.prototype`, all of which are truthy and none
    of which is a string. */
module JsObject {

  /** The property names an object literal inherits from `Object.prototype`. */
  const PrototypeMembers: set<string> := {
    "constructor", "hasOwnProperty", "isPrototypeOf", "propertyIsEnumerable",
    "toString", "toLocaleString", "valueOf", "__proto__",
    "__defineGetter__", "__defineSetter__", "__lookupGetter__", "__lookupSetter__"
  }

  /** The value a property read yields. */
  datatype Value = Undefined | Str(s: string) | Inherited(name: string)

  predicate Truthy(v: Value) {
    match v
    case Undefined => false
    case Str(s) => s != ""
    case Inherited(_) => true
  }

  /** `obj[key]` for an object literal whose own string-valued properties are `own`. */
  function Get(own: map<string, string>, key: string): (v: Value)
    ensures key in own ==> v == Str(own[key])
    ensures key !in own ==> (v.Inherited? <==> key in PrototypeMembers)
    ensures v.Inherited? ==> v.name == key
  {
    if key in own then Str(own[key])
    else if key in PrototypeMembers then Inherited(key)
    else Undefined
  }

  /** `v || fallback`. */
  function Or(v: Value, fallback: string): (r: Value)
    ensures Truthy(v) ==> r == v
    ensures !Truthy(v) ==> r == Str(fallback)
  {
    if Truthy(v) then v else Str(fallback)
  }
}
