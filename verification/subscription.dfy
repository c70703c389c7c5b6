/**
 The subscription oracle (`checkSubscription`, src/server.js): reduces the
 subscriber id and the outcome of the status request to an active/inactive
 verdict. The request itself is outside the model; its outcome is an input.
 */
module Subscription {
  import opened Wrappers
  import opened Text
  import opened Js

  /** What the status request produced: it threw (network error, timeout, or
      the body could not be read), it answered with a non-2xx status, or it
      answered 2xx with `text`, which `JSON.parse` turns into `parsed` or
      rejects (None). */
  datatype SubscriptionFetch =
    | Threw
    | NonOk
    | OkBody(text: string, parsed: Option<Value>)

  /** A subscriber id is present when it is a non-empty string. */
  predicate HasId(id: Option<string>) {
    id.Some? && id.value != ""
  }

  /** The fallback for bodies the JSON rules could not judge: the lower-cased
      body mentions "active", "true" or the digit 1 anywhere. */
  predicate TextSaysActive(text: string) {
    var lower := Lower(text);
    Contains(lower, "active") || Contains(lower, "true") || Contains(lower, "1")
  }

  /** `String(status).toLowerCase() === 'active'`. */
  function StatusSaysActive(status: Value, p: Platform): Completion<bool> {
    match ToJsString(status, p)
    case Throw => Throw
    case Normal(s) => Normal(Lower(s) == "active")
  }

  /** `Number(code) === 200`. */
  function CodeIs200(code: Value, p: Platform): Completion<bool> {
    match ToNumber(code, p)
    case Throw => Throw
    case Normal(n) => Normal(n == Some(200.0))
  }

  /** The ordered JSON rules of the inner `try`: bare `true`; `active === true`;
      a truthy `status` reading "active"; `is_active === true`; a truthy `code`
      equal to 200; `subscribed === true` or `is_subscribed === true`. The
      first rule that holds decides; reading `active` of null throws, and so
      does a conversion of `status` or `code` that has no primitive value. */
  function JsonVerdict(json: Value, p: Platform): (r: Completion<bool>)
    ensures json.JNull? || json.JUndefined? ==> r.Throw?
    ensures json.JNumber? || json.JString? || json == JBool(false) ==> r == Normal(false)
    // a rule met before any conversion throws decides
    ensures json == JBool(true) || (json.JObject? && Field(json, Active) == JBool(true)) ==> r == Normal(true)
    ensures json.JObject? && !StatusConversionThrows(json, p)
            && (StatusRuleHolds(json, p) || Field(json, IsActive) == JBool(true))
            ==> r == Normal(true)
    // a conversion that throws before any rule is met throws out of the rules
    ensures json.JObject? && Field(json, Active) != JBool(true) && StatusConversionThrows(json, p) ==> r.Throw?
    ensures json.JObject? && Field(json, Active) != JBool(true)
            && !StatusConversionThrows(json, p) && !StatusRuleHolds(json, p)
            && Field(json, IsActive) != JBool(true) && CodeConversionThrows(json, p)
            ==> r.Throw?
    // with conversions that succeed, the ordered rules agree with their disjunction
    ensures !json.JNull? && !json.JUndefined? && ConversionsSucceed(json, p) ==> r == Normal(AnyRuleHolds(json, p))
    ensures !json.JNull? && !json.JUndefined? && !AnyRuleHolds(json, p) && !ConversionsSucceed(json, p) ==> r.Throw?
  {
    if json == JBool(true) then Normal(true)
    else if json.JNull? || json.JUndefined? then Throw
    else if Field(json, Active) == JBool(true) then Normal(true)
    else
      var status := Field(json, Status);
      match (if Truthy(status) then StatusSaysActive(status, p) else Normal(false))
      case Throw => Throw
      case Normal(true) => Normal(true)
      case Normal(false) =>
        if Field(json, IsActive) == JBool(true) then Normal(true)
        else
          var code := Field(json, Code);
          match (if Truthy(code) then CodeIs200(code, p) else Normal(false))
          case Throw => Throw
          case Normal(true) => Normal(true)
          case Normal(false) =>
            Normal(Field(json, Subscribed) == JBool(true) || Field(json, IsSubscribed) == JBool(true))
  }

  /** The conversions of a truthy `status` and a truthy `code` both succeed. */
  ghost predicate ConversionsSucceed(json: Value, p: Platform)
    requires !json.JNull? && !json.JUndefined?
  {
    && (Truthy(Field(json, Status)) ==> ToJsString(Field(json, Status), p).Normal?)
    && (Truthy(Field(json, Code)) ==> ToNumber(Field(json, Code), p).Normal?)
  }

  /** `String(json.status)` runs and throws: `status` is truthy and has no
      primitive value. */
  ghost predicate StatusConversionThrows(json: Value, p: Platform)
    requires !json.JNull? && !json.JUndefined?
  {
    Truthy(Field(json, Status)) && ToJsString(Field(json, Status), p).Throw?
  }

  /** `Number(json.code)` runs and throws: `code` is truthy and has no
      primitive value. */
  ghost predicate CodeConversionThrows(json: Value, p: Platform)
    requires !json.JNull? && !json.JUndefined?
  {
    Truthy(Field(json, Code)) && ToNumber(Field(json, Code), p).Throw?
  }

  /** The `status` rule: a truthy `status` whose string reads "active". */
  ghost predicate StatusRuleHolds(json: Value, p: Platform)
    requires !json.JNull? && !json.JUndefined?
  {
    var status := Field(json, Status);
    Truthy(status) && ToJsString(status, p).Normal? && Lower(ToJsString(status, p).value) == "active"
  }

  /** Reference reading of the JSON rules as an unordered disjunction. */
  ghost predicate AnyRuleHolds(json: Value, p: Platform)
    requires !json.JNull? && !json.JUndefined?
  {
    var code := Field(json, Code);
    || json == JBool(true)
    || Field(json, Active) == JBool(true)
    || StatusRuleHolds(json, p)
    || Field(json, IsActive) == JBool(true)
    || (Truthy(code) && ToNumber(code, p) == Normal(Some(200.0)))
    || Field(json, Subscribed) == JBool(true)
    || Field(json, IsSubscribed) == JBool(true)
  }

  /** `checkSubscription(id)`: never throws, every failure is "inactive". */
  function Verdict(id: Option<string>, fetch: SubscriptionFetch, p: Platform): (active: bool)
    // no id, no request, no verdict
    ensures !HasId(id) ==> !active
    // a thrown request and a non-2xx answer are inactive
    ensures fetch.Threw? || fetch.NonOk? ==> !active
    // a body JSON.parse rejects, and the body `null` (whose `.active` throws), go to the text test
    ensures HasId(id) && fetch.OkBody? && (fetch.parsed.None? || fetch.parsed == Some(JNull))
            ==> (active <==> TextSaysActive(fetch.text))
    // a JSON number, string or false is never active, whatever its text says
    ensures fetch.OkBody? && fetch.parsed.Some?
            && (fetch.parsed.value.JNumber? || fetch.parsed.value.JString? || fetch.parsed.value == JBool(false))
            ==> !active
    // with conversions that succeed, active iff some JSON rule holds
    ensures HasId(id) && fetch.OkBody? && fetch.parsed.Some?
            && !fetch.parsed.value.JNull? && !fetch.parsed.value.JUndefined?
            && ConversionsSucceed(fetch.parsed.value, p)
            ==> (active <==> AnyRuleHolds(fetch.parsed.value, p))
    // when no rule holds but a conversion throws, the text test decides
    ensures HasId(id) && fetch.OkBody? && fetch.parsed.Some?
            && !fetch.parsed.value.JNull? && !fetch.parsed.value.JUndefined?
            && !AnyRuleHolds(fetch.parsed.value, p) && !ConversionsSucceed(fetch.parsed.value, p)
            ==> (active <==> TextSaysActive(fetch.text))
    // the rules are tried in order, so a rule met before any conversion throws decides:
    // bare `true` and `active === true` come before both conversions
    ensures HasId(id) && fetch.OkBody? && fetch.parsed.Some?
            && (fetch.parsed.value == JBool(true)
                || (fetch.parsed.value.JObject? && Field(fetch.parsed.value, Active) == JBool(true)))
            ==> active
    // the `status` and `is_active` rules come before the `code` conversion
    ensures HasId(id) && fetch.OkBody? && fetch.parsed.Some? && fetch.parsed.value.JObject?
            && !StatusConversionThrows(fetch.parsed.value, p)
            && (StatusRuleHolds(fetch.parsed.value, p) || Field(fetch.parsed.value, IsActive) == JBool(true))
            ==> active
    // a throwing `status` conversion with no earlier rule met hands over to the text test
    ensures HasId(id) && fetch.OkBody? && fetch.parsed.Some? && fetch.parsed.value.JObject?
            && Field(fetch.parsed.value, Active) != JBool(true)
            && StatusConversionThrows(fetch.parsed.value, p)
            ==> (active <==> TextSaysActive(fetch.text))
    // so does a throwing `code` conversion when the status test passed without a verdict
    ensures HasId(id) && fetch.OkBody? && fetch.parsed.Some? && fetch.parsed.value.JObject?
            && Field(fetch.parsed.value, Active) != JBool(true)
            && !StatusConversionThrows(fetch.parsed.value, p) && !StatusRuleHolds(fetch.parsed.value, p)
            && Field(fetch.parsed.value, IsActive) != JBool(true)
            && CodeConversionThrows(fetch.parsed.value, p)
            ==> (active <==> TextSaysActive(fetch.text))
  {
    if !HasId(id) then false
    else
      match fetch
      case Threw => false
      case NonOk => false
      case OkBody(text, parsed) =>
        if parsed.None? then TextSaysActive(text)
        else
          match JsonVerdict(parsed.value, p)
          case Throw => TextSaysActive(text)
          case Normal(b) => b
  }

  /** The body `null` parses, its `.active` throws, and the text test on
      "null" finds nothing: inactive. */
  lemma NullBodyIsInactive(id: string, p: Platform)
    requires id != ""
    ensures !Verdict(Some(id), OkBody("null", Some(JNull)), p)
  {
    assert Lower("null") == "null";
    MissingFirstChar("null", "active");
    MissingFirstChar("null", "true");
    MissingFirstChar("null", "1");
  }

  /** The body `{"status":{"toString":0},"code":200}`. */
  const ThrowingStatusBody: Value :=
    JObject([("status", JObject([("toString", JNumber(0.0))])), ("code", JNumber(200.0))])

  /** What the rules see in that body: no `active`, a `status` whose
      conversion throws, and a `code` of 200. */
  lemma ThrowingStatusBodyFields(p: Platform)
    ensures Field(ThrowingStatusBody, Active) == JUndefined
    ensures StatusConversionThrows(ThrowingStatusBody, p)
    ensures Field(ThrowingStatusBody, Code) == JNumber(200.0)
  {
    var status := JObject([("toString", JNumber(0.0))]);
    var props := ThrowingStatusBody.props;
    assert "status"[0] != "active"[0] && "code"[0] != "active"[0] && "code"[0] != "status"[0];
    assert props[..1] == [("status", status)];
    assert OwnProperty(props, "status") == OwnProperty([("status", status)], "status") == Some(status);
    assert HasOwn(status.props, "toString");
  }

  /** That body meets the `code` rule, but `String(status)` throws first, so
      the text test decides: with a text that mentions none of its words,
      the verdict is inactive. */
  lemma ThrowingStatusHidesCodeRule(id: string, text: string, p: Platform)
    requires id != "" && !TextSaysActive(text)
    ensures AnyRuleHolds(ThrowingStatusBody, p)
    ensures !Verdict(Some(id), OkBody(text, Some(ThrowingStatusBody)), p)
  {
    ThrowingStatusBodyFields(p);
    assert Truthy(Field(ThrowingStatusBody, Code)) && ToNumber(Field(ThrowingStatusBody, Code), p) == Normal(Some(200.0));
  }

  /** The body `1` parses to a number, which no JSON rule accepts, although
      the text test would accept the same text. */
  lemma NumberBodySkipsTextTest(id: string, p: Platform)
    requires id != ""
    ensures !Verdict(Some(id), OkBody("1", Some(JNumber(1.0))), p)
    ensures TextSaysActive("1")
  {
  }
}
