// The two JavaScript helpers of the library that read untyped values:
// `get(array, what)` and the closure `option(name, prop)` that merges the
// caller's options with the defaults.
module Js {

  /** The JavaScript values these helpers meet. Numbers are integers here. */
  datatype JsValue =
    | Undefined
    | Null
    | Bool(b: bool)
    | Num(n: int)
    | Str(s: string)
    | Obj(fields: map<string, JsValue>)

  /** JavaScript truthiness. */
  predicate Truthy(v: JsValue)
  {
    match v
    case Undefined => false
    case Null => false
    case Bool(b) => b
    case Num(n) => n != 0
    case Str(s) => s != ""
    case Obj(_) => true
  }

  /** `v[k]` on a value that is not null or undefined. Properties of primitives
      (a string's `length`, its indices) are not modelled: they read as undefined. */
  function Prop(v: JsValue, k: string): JsValue
  {
    match v
    case Obj(m) => if k in m then m[k] else Undefined
    case _ => Undefined
  }

  /** `v[k]`, which throws a TypeError on null and undefined. */
  datatype Access = Value(v: JsValue) | TypeError

  function Member(v: JsValue, k: string): (r: Access)
    ensures r.TypeError? <==> v == Undefined || v == Null
    ensures r.Value? ==> r.v == Prop(v, k)
  {
    if v == Undefined || v == Null then TypeError else Value(Prop(v, k))
  }

  /** `get(array, what)`: the property when both the container and the property are
      truthy, and the empty string otherwise. */
  function Get(container: JsValue, what: string): (r: JsValue)
    ensures Truthy(r) <==> Truthy(container) && Truthy(Prop(container, what))
    ensures Truthy(r) ==> r == Prop(container, what)
    ensures !Truthy(r) ==> r == Str("")
  {
    if Truthy(container) then
      var x := Prop(container, what);
      if Truthy(x) then x else Str("")
    else Str("")
  }

  /** `option(name, prop)`: a caller's option that is not `undefined` wins over the
      default; with a non-empty `prop` the lookup goes one level deeper, per property.
      Reading a property of an undefined or null container throws. */
  function OptionLookup(options: JsValue, defaults: JsValue, name: string, prop: string): Access
  {
    match Member(options, name)
    case TypeError => TypeError
    case Value(o) =>
      if prop != "" then
        if o != Undefined then
          match Member(o, prop)
          case TypeError => TypeError
          case Value(x) => if x != Undefined then Value(x) else Fallback(defaults, name, prop)
        else Fallback(defaults, name, prop)
      else if o != Undefined then Value(o)
      else Member(defaults, name)
  }

  /** `optionsDefault[name][prop]`. */
  function Fallback(defaults: JsValue, name: string, prop: string): Access
  {
    match Member(defaults, name)
    case TypeError => TypeError
    case Value(d) => Member(d, prop)
  }

  /** A top-level option the caller set (to anything but `undefined`) is returned as is. */
  lemma CallerOptionWins(options: map<string, JsValue>, defaults: JsValue, name: string)
    requires name in options && options[name] != Undefined
    ensures OptionLookup(Obj(options), defaults, name, "") == Value(options[name])
  {
  }

  /** A top-level option the caller did not set comes from the defaults. */
  lemma DefaultOptionUsed(options: map<string, JsValue>, defaults: map<string, JsValue>, name: string)
    requires name !in options || options[name] == Undefined
    ensures OptionLookup(Obj(options), Obj(defaults), name, "") == Value(Prop(Obj(defaults), name))
  {
  }

  /** Nested options (`option('callbacks', 'onOpen')`) are merged per property: the
      caller's property if it is defined, the default's otherwise, as long as the
      default group is an object. */
  lemma NestedOptionMerged(options: map<string, JsValue>, group: map<string, JsValue>,
                           defaults: map<string, JsValue>, dgroup: map<string, JsValue>,
                           name: string, prop: string)
    requires prop != ""
    requires name in options && options[name] == Obj(group)
    requires name in defaults && defaults[name] == Obj(dgroup)
    ensures OptionLookup(Obj(options), Obj(defaults), name, prop) ==
            if prop in group && group[prop] != Undefined then Value(group[prop])
            else Value(Prop(Obj(dgroup), prop))
  {
  }

  /** `option(...)` never throws once the options object exists and the default group
      of a nested lookup is an object. */
  lemma OptionLookupTotal(options: map<string, JsValue>, defaults: map<string, JsValue>,
                          name: string, prop: string)
    requires prop != "" ==> name in defaults && defaults[name].Obj?
    requires prop != "" && name in options ==> options[name] != Null
    ensures OptionLookup(Obj(options), Obj(defaults), name, prop).Value?
  {
  }
}
