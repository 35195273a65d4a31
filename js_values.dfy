/**
 * The JavaScript values that cross the boundary between the framework and
 * user code: hook results, `pageContext` values, prerender results.
 */
module JsValues {

  datatype JsValue =
    | JsUndefined
    | JsNull
    | JsString(s: string)
    | JsBool(b: bool)
    | JsNumber(n: real)            // NaN is not represented
    | JsOtherPrimitive             // a bigint or symbol
    | JsFunction
    | JsDocumentHtml(handle: nat)  // what `escapeInject` / `dangerouslySkipEscape` return
    | JsArray(items: seq<JsValue>)
    | JsObject(entries: seq<(string, JsValue)>, constructorName: string)

  /** `isObject(v)`: `typeof v === 'object' && v !== null`. */
  predicate IsObject(v: JsValue) {
    v.JsObject? || v.JsDocumentHtml? || v.JsArray?
  }

  /** `isPlainObject(v)`: an object whose constructor is named `Object`. */
  predicate IsPlainObject(v: JsValue) {
    v.JsObject? && v.constructorName == "Object"
  }

  predicate IsDocumentHtml(v: JsValue) {
    v.JsDocumentHtml?
  }

  /** JavaScript truthiness. */
  predicate Truthy(v: JsValue) {
    match v
    case JsUndefined => false
    case JsNull => false
    case JsBool(b) => b
    case JsNumber(n) => n != 0.0
    case JsString(s) => s != ""
    case _ => true
  }

  /** `null` and `undefined`. */
  predicate IsNullish(v: JsValue) {
    v.JsUndefined? || v.JsNull?
  }

  /** `Object.keys(v)`, in insertion order. */
  function Keys(v: JsValue): (r: seq<string>)
    ensures v.JsObject? ==> |r| == |v.entries|
    ensures forall k :: k in r <==> v.JsObject? && exists i :: 0 <= i < |v.entries| && v.entries[i].0 == k
  {
    if !v.JsObject? then []
    else KeysOf(v.entries)
  }

  function KeysOf(entries: seq<(string, JsValue)>): (r: seq<string>)
    ensures |r| == |entries|
    ensures forall i :: 0 <= i < |entries| ==> r[i] == entries[i].0
  {
    if entries == [] then [] else [entries[0].0] + KeysOf(entries[1..])
  }

  /** `hasProp(v, key)`: the object has the key. */
  predicate HasProp(v: JsValue, key: string) {
    key in Keys(v)
  }

  /** `v[key]`: the value of the first entry with that key, else `undefined`. */
  function Get(v: JsValue, key: string): (r: JsValue)
    ensures !HasProp(v, key) ==> r == JsUndefined
    ensures HasProp(v, key) ==> exists i :: 0 <= i < |v.entries| && v.entries[i] == (key, r)
  {
    if !v.JsObject? then JsUndefined else Lookup(v.entries, key)
  }

  function Lookup(entries: seq<(string, JsValue)>, key: string): (r: JsValue)
    ensures (forall i :: 0 <= i < |entries| ==> entries[i].0 != key) ==> r == JsUndefined
    ensures (exists i :: 0 <= i < |entries| && entries[i].0 == key) ==>
      exists i :: 0 <= i < |entries| && entries[i] == (key, r)
  {
    if entries == [] then JsUndefined
    else if entries[0].0 == key then entries[0].1
    else
      var r := Lookup(entries[1..], key);
      assert forall i :: 0 <= i < |entries| - 1 ==> entries[1..][i] == entries[i + 1];
      r
  }
}
