/** JavaScript values as the plugins see them: optional option fields,
    truthiness of strings, and the `||` operator used for defaults. */
module JsValues {

  /** An option or configuration field that may be absent (`undefined` or `null`). */
  datatype Option<+T> = None | Some(value: T)

  /** JavaScript truthiness of a possibly-absent string: absent and `""` are falsy. */
  predicate Truthy(o: Option<string>)
  {
    o.Some? && o.value != ""
  }

  /** `a || b` on two possibly-absent strings: the left operand when it is truthy,
      otherwise the right one, whatever it is. */
  function Or(a: Option<string>, b: Option<string>): (r: Option<string>)
    ensures Truthy(a) ==> r == a
    ensures !Truthy(a) ==> r == b
    ensures Truthy(r) <==> Truthy(a) || Truthy(b)
  {
    if Truthy(a) then a else b
  }

  /** `o || d` where `d` is a string literal default. */
  function OrDefault(o: Option<string>, d: string): (r: string)
    ensures Truthy(o) ==> r == o.value
    ensures !Truthy(o) ==> r == d
    ensures d != "" ==> r != ""
  {
    if Truthy(o) then o.value else d
  }

  /** `o || false` on a possibly-absent boolean. */
  function OrFalse(o: Option<bool>): (r: bool)
    ensures r <==> o == Some(true)
  {
    o.Some? && o.value
  }

  /** An empty string is treated exactly like an absent field. */
  lemma EmptyStringIsAbsent(d: string)
    ensures OrDefault(Some(""), d) == OrDefault(None, d) == d
  {
  }

  /** The properties every plain object inherits from `Object.prototype`:
      the `in` operator answers true for them even on an empty object `{}`. */
  const ObjectPrototypeNames: set<string> :=
    {"constructor", "hasOwnProperty", "isPrototypeOf", "propertyIsEnumerable",
     "toLocaleString", "toString", "valueOf", "__proto__",
     "__defineGetter__", "__defineSetter__", "__lookupGetter__", "__lookupSetter__"}

  /** `k in o` for a plain object `o` whose own properties are the keys of `own`. */
  predicate HasProperty<V>(own: map<string, V>, k: string)
  {
    k in own || k in ObjectPrototypeNames
  }
}
