/**
 The slice of JavaScript semantics the gateway's decisions depend on: the
 values `JSON.parse` produces, property reads on them, truthiness, and the
 `String(...)` and `Number(...)` conversions, each of which may throw.
 */
module Js {
  import opened Wrappers

  /** A JavaScript value as produced by `JSON.parse`, plus `undefined`, which
      is what reading a missing property gives. Numbers are modelled as reals:
      parsing JSON gives no NaN, and the infinities it can give are left out.
      An object keeps its members in source order, duplicates included. */
  datatype Value =
    | JUndefined
    | JNull
    | JBool(b: bool)
    | JNumber(n: real)
    | JString(s: string)
    | JArray(elems: seq<Value>)
    | JObject(props: seq<(string, Value)>)

  /** The outcome of evaluating an expression that may throw. */
  datatype Completion<T> = Normal(value: T) | Throw

  /** Library behaviour the model leaves uninterpreted, passed in as functions. */
  datatype Platform = Platform(
    numberOf: string -> Option<real>,                    // Number(s) on a string; None is NaN
    numeral: real -> string,                             // String(n) on a number
    parseUrl: (string, Option<string>) -> Option<string>, // new URL(input, base).href; None when it throws
    encode: string -> string,                            // encodeURIComponent
    decode: string -> Option<string>)                    // decodeURIComponent; None when it throws

  /** The property names the gateway reads. None of them is an own or
      inherited property of arrays, strings, numbers or booleans, nor one that
      `Object.prototype` supplies. */
  datatype Key =
    | Active | Status | IsActive | Code | Subscribed | IsSubscribed
    | Channels | ChannelNumber | Url | Number | M3u8Url | Name | StreamPath

  function KeyName(k: Key): string {
    match k
    case Active => "active"
    case Status => "status"
    case IsActive => "is_active"
    case Code => "code"
    case Subscribed => "subscribed"
    case IsSubscribed => "is_subscribed"
    case Channels => "channels"
    case ChannelNumber => "channel_number"
    case Url => "url"
    case Number => "number"
    case M3u8Url => "m3u8_url"
    case Name => "name"
    case StreamPath => "stream_path"
  }

  /** The value of the member called `name`; when `JSON.parse` meets a name
      twice, the later member wins. */
  function OwnProperty(props: seq<(string, Value)>, name: string): (r: Option<Value>)
    ensures r.None? <==> forall i :: 0 <= i < |props| ==> props[i].0 != name
    ensures r.Some? ==> exists i :: 0 <= i < |props| && props[i] == (name, r.value)
                                     && forall j :: i < j < |props| ==> props[j].0 != name
  {
    if |props| == 0 then None
    else if props[|props| - 1].0 == name then Some(props[|props| - 1].1)
    else OwnProperty(props[..|props| - 1], name)
  }

  predicate HasOwn(props: seq<(string, Value)>, name: string) {
    OwnProperty(props, name).Some?
  }

  /** `v.k` on a value that is neither null nor undefined. */
  function Field(v: Value, k: Key): Value
    requires !v.JNull? && !v.JUndefined?
  {
    if v.JObject? then OwnProperty(v.props, KeyName(k)).GetOr(JUndefined) else JUndefined
  }

  /** `v.k`, which throws a TypeError on null and undefined. */
  function Get(v: Value, k: Key): (r: Completion<Value>)
    ensures r.Throw? <==> v.JNull? || v.JUndefined?
    ensures r.Normal? && r.value != JUndefined ==> v.JObject? && OwnProperty(v.props, KeyName(k)) == Some(r.value)
    ensures v.JObject? && HasOwn(v.props, KeyName(k)) ==> r == Normal(OwnProperty(v.props, KeyName(k)).value)
  {
    if v.JNull? || v.JUndefined? then Throw else Normal(Field(v, k))
  }

  /** JavaScript truthiness. */
  predicate Truthy(v: Value) {
    match v
    case JUndefined => false
    case JNull => false
    case JBool(b) => b
    case JNumber(n) => n != 0.0
    case JString(s) => |s| > 0
    case JArray(_) => true
    case JObject(_) => true
  }

  /** `String(v)`. A parsed object's own `toString` member is never callable,
      so when it is present the conversion finds no callable method and throws
      a TypeError; otherwise it is "[object Object]". An array joins its
      elements with commas, null and undefined elements becoming "". */
  function ToJsString(v: Value, p: Platform): (r: Completion<string>)
    ensures v.JString? ==> r == Normal(v.s)
    ensures v.JObject? ==> (r.Throw? <==> HasOwn(v.props, "toString"))
    ensures !v.JArray? && !v.JObject? ==> r.Normal?
    decreases v, 1, 0
  {
    match v
    case JUndefined => Normal("undefined")
    case JNull => Normal("null")
    case JBool(b) => Normal(if b then "true" else "false")
    case JNumber(n) => Normal(p.numeral(n))
    case JString(s) => Normal(s)
    case JArray(_) => JoinElements(v, 0, p)
    case JObject(props) => if HasOwn(props, "toString") then Throw else Normal("[object Object]")
  }

  /** `Array.prototype.join(",")` over the elements from index `i` on. */
  function JoinElements(arr: Value, i: nat, p: Platform): (r: Completion<string>)
    requires arr.JArray? && i <= |arr.elems|
    ensures r.Throw? <==> exists k :: i <= k < |arr.elems| && ElementString(arr.elems[k], p).Throw?
    decreases arr, 0, |arr.elems| - i
  {
    if i == |arr.elems| then Normal("")
    else
      match ElementString(arr.elems[i], p)
      case Throw => Throw
      case Normal(head) =>
        if i + 1 == |arr.elems| then Normal(head)
        else
          match JoinElements(arr, i + 1, p)
          case Throw => Throw
          case Normal(rest) => Normal(head + "," + rest)
  }

  /** How `join` renders one element. */
  function ElementString(e: Value, p: Platform): Completion<string>
    decreases e, 2, 0
  {
    if e.JNull? || e.JUndefined? then Normal("") else ToJsString(e, p)
  }

  /** `Number(v)`, None standing for NaN. An object converts through
      `valueOf` (which yields the object itself) and then `toString`, so it
      throws exactly when `String(v)` does and is NaN otherwise. */
  function ToNumber(v: Value, p: Platform): (r: Completion<Option<real>>)
    ensures v.JNumber? ==> r == Normal(Some(v.n))
    ensures v.JString? ==> r == Normal(p.numberOf(v.s))
    ensures r.Throw? ==> ToJsString(v, p).Throw?
  {
    match v
    case JUndefined => Normal(None)
    case JNull => Normal(Some(0.0))
    case JBool(b) => Normal(Some(if b then 1.0 else 0.0))
    case JNumber(n) => Normal(Some(n))
    case JString(s) => Normal(p.numberOf(s))
    case JArray(_) =>
      (match ToJsString(v, p)
       case Throw => Throw
       case Normal(s) => Normal(p.numberOf(s)))
    case JObject(props) => if HasOwn(props, "toString") then Throw else Normal(None)
  }
}
