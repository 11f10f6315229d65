/**
 * The JavaScript coercions the admin script applies to parsed values:
 * truthiness (`!!x`), `typeof x === 'object'` and `String(x)`.
 */
module Js {
  import opened Values
  import Php

  /** `!!v`: false, 0, '' and null are falsy; every array and object is truthy, even an empty one. */
  predicate Truthy(v: Json)
  {
    match v
    case JNull => false
    case JBool(b) => b
    case JInt(i) => i != 0
    case JStr(s) => s != ""
    case JList(_) => true
    case JObject(_) => true
  }

  /** `v && typeof v === 'object'`: arrays and objects, but not null. */
  predicate IsObject(v: Json)
  {
    v.JList? || v.JObject?
  }

  /** `String(v)`: an array joins its elements with ',' (null elements become ''), an object is '[object Object]'. */
  function ToString(v: Json): string
    decreases v
  {
    match v
    case JNull => "null"
    case JBool(b) => if b then "true" else "false"
    case JInt(i) => if i < 0 then "-" + Php.NatToString(-i) else Php.NatToString(i)
    case JStr(s) => s
    case JList(items) => JoinFrom(v, 0)
    case JObject(_) => "[object Object]"
  }

  /** `items.slice(k).join(',')` for the list `whole`, with `String` applied to each element. */
  function JoinFrom(whole: Json, k: nat): string
    requires whole.JList? && k <= |whole.items|
    decreases whole, |whole.items| - k
  {
    if k == |whole.items| then ""
    else
      var item := whole.items[k];
      assert item in whole.items;
      var text := if item == JNull then "" else ToString(item);
      if k + 1 == |whole.items| then text else text + "," + JoinFrom(whole, k + 1)
  }

}
