/** The hosting plugin's REST routes: the signature-checked permission callbacks of the
    flush-cache, diagnostics and activity-log routes, with their per-endpoint memo of validated
    outcomes; the XML-RPC toggle; the CDN flush status poll; and the activity log's `number`
    argument. The remote signature validator and the CDN status API are parameters. */
module HostRestApi {
  import opened Php

  /** The signature-checked endpoints, each with its own memo entry. */
  datatype Endpoint = FlushCache | Diagnostics | ActivityLog

  /** The memo key each endpoint uses. */
  function MemoKey(e: Endpoint): string {
    match e
    case FlushCache => "flush_cache"
    case Diagnostics => "diagnostics"
    case ActivityLog => "get_activity_log"
  }

  /** The signature headers sent to the validator. */
  datatype Signature = Signature(nonce: string, origin: string, signature: string, bodyHash: string)

  /** A request header's first value, or '' when the header is missing. */
  function HeaderOrEmpty(headers: map<string, seq<string>>, name: string): (r: string)
    ensures (name !in headers || headers[name] == []) ==> r == ""
    ensures name in headers && headers[name] != [] ==> r == headers[name][0]
  {
    if name in headers && |headers[name]| > 0 then headers[name][0] else ""
  }

  /** The signature a permission callback builds from the request headers. */
  function SignatureOf(headers: map<string, seq<string>>): Signature {
    Signature(HeaderOrEmpty(headers, "x_nonce"), HeaderOrEmpty(headers, "x_origin"),
              HeaderOrEmpty(headers, "x_signature"), HeaderOrEmpty(headers, "x_bodyhash"))
  }

  /** A decoded JSON value, as `json_decode(..., true)` yields it; arrays and objects are not
      told apart, since nothing here looks inside them. */
  datatype JsonValue = JNull | JBool(b: bool) | JNumber(n: int) | JString(s: string) | JCompound

  /** WordPress's rule for a permission callback's answer: the request is refused exactly when
      the answer is `false` or `null`; any other value lets it through. */
  predicate Grants(answer: JsonValue) {
    answer != JBool(false) && answer != JNull
  }

  /** `validate_signature`: the `validated` entry of the validator's response body, passed on as
      it is, or `false` when the body has no such entry or it is `null` (`?? false`). None stands
      for a body without the entry, including a body that is not a JSON object. */
  function ValidateSignature(validatedEntry: Option<JsonValue>): (r: JsonValue)
    ensures r != JNull
    ensures Grants(r) <==> validatedEntry.Some? && Grants(validatedEntry.value)
    ensures validatedEntry.Some? && validatedEntry.value != JNull ==> r == validatedEntry.value
  {
    if validatedEntry.Some? && validatedEntry.value != JNull then validatedEntry.value else JBool(false)
  }

  /** `isset($this->validated[key])`: an entry that is present and not `null`. */
  predicate IsSet(validated: map<Endpoint, JsonValue>, e: Endpoint) {
    e in validated && validated[e] != JNull
  }

  /** A permission check's answer, the memo after it and the signatures sent to the validator. */
  datatype PermissionStep = PermissionStep(answer: JsonValue, validated: map<Endpoint, JsonValue>, checks: seq<Signature>)

  /** A signature permission callback. `tempDomain` is GD_TEMP_DOMAIN and `validator` the
      validator's answer for a signature. */
  function PermissionSpec(
    validated: map<Endpoint, JsonValue>, checks: seq<Signature>, e: Endpoint,
    headers: map<string, seq<string>>, tempDomain: string, validator: Signature -> Option<JsonValue>): PermissionStep
  {
    if IsSet(validated, e) then PermissionStep(validated[e], validated, checks)
    else
      var signature := SignatureOf(headers);
      if signature.origin != tempDomain then PermissionStep(JBool(false), validated, checks)
      else
        var outcome := ValidateSignature(validator(signature));
        PermissionStep(outcome, validated[e := outcome], checks + [signature])
  }

  /** How the CDN status API answers for an invalidation ID: no response (null), or a response
      with or without a `status` entry. */
  datatype CdnStatus = NoResponse | CdnResponse(status: Option<string>)

  /** The flush status route's answer: the HTTP code and the reported flush status (None for the
      404 answer, which carries none). */
  datatype FlushResponse = FlushResponse(code: int, flushStatus: Option<string>)

  /** The reported status: the response's, or PENDING when there is none. */
  function FlushStatusOf(raw: CdnStatus): string {
    if raw.CdnResponse? && raw.status.Some? then raw.status.value else "PENDING"
  }

  /** The flush status route's answer, the stored invalidation ID after it and the IDs sent to
      the CDN status API. */
  datatype FlushStep = FlushStep(response: FlushResponse, invalidationId: Option<string>, requests: seq<string>)

  /** The flush status callback; `invalidationId` is the stored polling ID (None once it has been
      cleared). */
  function FlushStatusSpec(invalidationId: Option<string>, requests: seq<string>, cdn: string -> CdnStatus): FlushStep {
    if !TruthyOpt(invalidationId) then FlushStep(FlushResponse(404, None), invalidationId, requests)
    else
      var raw := cdn(invalidationId.value);
      var status := FlushStatusOf(raw);
      var cleared := raw.NoResponse? || status == "SUCCESS" || status == "FAILED";
      var ok := raw.NoResponse? || status == "SUCCESS" || status == "PENDING";
      FlushStep(FlushResponse(if ok then 200 else 400, Some(status)),
                if cleared then None else invalidationId,
                requests + [invalidationId.value])
  }

  /** The value the XML-RPC toggle writes, given the stored option (None when unset). */
  function Toggled(option: Option<string>): string {
    var current := if option.Some? then option.value else "enabled";
    if "enabled" == current then "disabled" else "enabled"
  }

  /** Whether the toggle reads the stored option as enabled. */
  predicate XmlrpcEnabled(option: Option<string>) {
    option.None? || option == Some("enabled")
  }

  /** The REST routes' state: the validated memo, the stored options and the remote calls made. */
  class RestApi {
    var validated: map<Endpoint, JsonValue>
    var signatureChecks: seq<Signature>
    var xmlrpcOption: Option<string>
    var invalidationId: Option<string>
    var statusRequests: seq<string>

    constructor (xmlrpcOption: Option<string>, invalidationId: Option<string>)
      ensures validated == map[] && signatureChecks == [] && statusRequests == []
      ensures this.xmlrpcOption == xmlrpcOption && this.invalidationId == invalidationId
    {
      validated, signatureChecks, statusRequests := map[], [], [];
      this.xmlrpcOption, this.invalidationId := xmlrpcOption, invalidationId;
    }

    /** The permission callback of the endpoint `e`. */
    method CheckPermission(e: Endpoint, headers: map<string, seq<string>>, tempDomain: string,
                           validator: Signature -> Option<JsonValue>) returns (answer: JsonValue)
      modifies this
      ensures PermissionStep(answer, validated, signatureChecks) ==
        PermissionSpec(old(validated), old(signatureChecks), e, headers, tempDomain, validator)
      ensures xmlrpcOption == old(xmlrpcOption) && invalidationId == old(invalidationId)
      ensures statusRequests == old(statusRequests)
    {
      if e in validated && validated[e] != JNull {
        return validated[e];
      }
      var signature := SignatureOf(headers);
      if signature.origin != tempDomain {
        return JBool(false);
      }
      signatureChecks := signatureChecks + [signature];
      var outcome := ValidateSignature(validator(signature));
      validated := validated[e := outcome];
      return validated[e];
    }

    /** The `toggle-xmlrpc` callback. */
    method ToggleXmlrpc()
      modifies this
      ensures xmlrpcOption == Some(Toggled(old(xmlrpcOption)))
      ensures validated == old(validated) && signatureChecks == old(signatureChecks)
      ensures invalidationId == old(invalidationId) && statusRequests == old(statusRequests)
    {
      var current := if xmlrpcOption.Some? then xmlrpcOption.value else "enabled";
      var status := "enabled";
      if "enabled" == current {
        status := "disabled";
      }
      xmlrpcOption := Some(status);
    }

    /** The `flush-cache/status` callback. */
    method FlushCacheCdnStatus(cdn: string -> CdnStatus) returns (response: FlushResponse)
      modifies this
      ensures FlushStep(response, invalidationId, statusRequests) ==
        FlushStatusSpec(old(invalidationId), old(statusRequests), cdn)
      ensures validated == old(validated) && signatureChecks == old(signatureChecks)
      ensures xmlrpcOption == old(xmlrpcOption)
    {
      if TruthyOpt(invalidationId) {
        var id := invalidationId.value;
        statusRequests := statusRequests + [id];
        var raw := cdn(id);
        var status := if raw.CdnResponse? && raw.status.Some? then raw.status.value else "PENDING";
        if raw.NoResponse? || status == "SUCCESS" || status == "FAILED" {
          invalidationId := None;
        }
        if raw.NoResponse? || status == "SUCCESS" || status == "PENDING" {
          return FlushResponse(200, Some(status));
        } else {
          return FlushResponse(400, Some(status));
        }
      }
      return FlushResponse(404, None);
    }
  }

  // ---------------------------------------------------------------------------
  // Properties of the permission callbacks

  /** Missing signature headers are sent as empty strings. */
  lemma MissingHeadersAreEmpty()
    ensures SignatureOf(map[]) == Signature("", "", "", "")
  {
  }

  /** A request from another origin is denied without asking the validator, and the denial is
      not remembered. */
  lemma OriginMismatchDenied(
    validated: map<Endpoint, JsonValue>, checks: seq<Signature>, e: Endpoint,
    headers: map<string, seq<string>>, tempDomain: string, validator: Signature -> Option<JsonValue>)
    requires !IsSet(validated, e)
    requires HeaderOrEmpty(headers, "x_origin") != tempDomain
    ensures PermissionSpec(validated, checks, e, headers, tempDomain, validator) == PermissionStep(JBool(false), validated, checks)
    ensures !Grants(PermissionSpec(validated, checks, e, headers, tempDomain, validator).answer)
  {
  }

  /** A remembered outcome is returned as it is, without asking the validator. */
  lemma MemoAnswersWithoutCheck(
    validated: map<Endpoint, JsonValue>, checks: seq<Signature>, e: Endpoint,
    headers: map<string, seq<string>>, tempDomain: string, validator: Signature -> Option<JsonValue>)
    requires IsSet(validated, e)
    ensures PermissionSpec(validated, checks, e, headers, tempDomain, validator) ==
      PermissionStep(validated[e], validated, checks)
  {
  }

  /** The validator is asked exactly when the endpoint has no remembered outcome and the origin
      matches; then the request's signature is sent, and its outcome is both the answer and the
      endpoint's new memo entry. No other endpoint's entry ever changes. */
  lemma OnlyValidatedOutcomesRemembered(
    validated: map<Endpoint, JsonValue>, checks: seq<Signature>, e: Endpoint,
    headers: map<string, seq<string>>, tempDomain: string, validator: Signature -> Option<JsonValue>)
    ensures var step := PermissionSpec(validated, checks, e, headers, tempDomain, validator);
      && (step.checks != checks <==> !IsSet(validated, e) && SignatureOf(headers).origin == tempDomain)
      && (step.checks != checks ==>
            && step.checks == checks + [SignatureOf(headers)]
            && step.answer != JNull
            && step.validated == validated[e := step.answer])
      && (step.checks == checks ==> step.validated == validated)
      && (forall f :: f != e ==> (f in step.validated <==> f in validated))
      && (forall f :: f != e && f in validated ==> step.validated[f] == validated[f])
  {
  }

  /** After a check that asked the validator, the next check of the same endpoint repeats its
      answer for any request, without asking again. */
  lemma SecondCheckRepeatsFirst(
    validated: map<Endpoint, JsonValue>, checks: seq<Signature>, e: Endpoint,
    headers1: map<string, seq<string>>, headers2: map<string, seq<string>>,
    tempDomain: string, validator: Signature -> Option<JsonValue>)
    ensures var first := PermissionSpec(validated, checks, e, headers1, tempDomain, validator);
      var second := PermissionSpec(first.validated, first.checks, e, headers2, tempDomain, validator);
      first.checks != checks ==> second == PermissionStep(first.answer, first.validated, first.checks)
  {
  }

  /** WordPress lets a request through exactly when the memo holds a granting answer for the
      endpoint, or, with no memo entry, the origin matches and the validator's `validated` entry
      is present and neither `false` nor `null`. */
  lemma AllowedMeansValidated(
    validated: map<Endpoint, JsonValue>, checks: seq<Signature>, e: Endpoint,
    headers: map<string, seq<string>>, tempDomain: string, validator: Signature -> Option<JsonValue>)
    ensures var entry := validator(SignatureOf(headers));
      Grants(PermissionSpec(validated, checks, e, headers, tempDomain, validator).answer) <==>
        if IsSet(validated, e) then Grants(validated[e])
        else SignatureOf(headers).origin == tempDomain && entry.Some? && Grants(entry.value)
  {
  }

  // ---------------------------------------------------------------------------
  // Properties of the XML-RPC toggle and the flush status poll

  /** The toggle always flips whether XML-RPC reads as enabled, and always stores one of the two
      canonical values. */
  lemma ToggleFlips(option: Option<string>)
    ensures XmlrpcEnabled(Some(Toggled(option))) == !XmlrpcEnabled(option)
    ensures Toggled(option) == "enabled" || Toggled(option) == "disabled"
    ensures Toggled(Some(Toggled(Some(Toggled(option))))) == Toggled(option)
  {
    if XmlrpcEnabled(option) {
      assert Toggled(option) == "disabled";
    } else {
      assert option.Some? && option.value != "enabled";
      assert Toggled(option) == "enabled";
    }
  }

  /** Without a stored (truthy) invalidation ID the answer is 404 and the CDN is not asked. */
  lemma NoInvalidationIdIsNotFound(invalidationId: Option<string>, requests: seq<string>, cdn: string -> CdnStatus)
    requires !TruthyOpt(invalidationId)
    ensures FlushStatusSpec(invalidationId, requests, cdn) == FlushStep(FlushResponse(404, None), invalidationId, requests)
  {
  }

  /** With a stored ID: a missing status reads as PENDING; the ID is cleared exactly on no
      response, SUCCESS or FAILED; the answer is 200 exactly on no response, SUCCESS or PENDING,
      and 400 otherwise. */
  lemma FlushStatusOutcomes(invalidationId: Option<string>, requests: seq<string>, cdn: string -> CdnStatus)
    requires TruthyOpt(invalidationId)
    ensures var raw := cdn(invalidationId.value);
      var step := FlushStatusSpec(invalidationId, requests, cdn);
      && step.requests == requests + [invalidationId.value]
      && (raw == CdnResponse(None) ==> step.response == FlushResponse(200, Some("PENDING")) && step.invalidationId == invalidationId)
      && (step.invalidationId.None? <==>
            raw.NoResponse? || raw.status == Some("SUCCESS") || raw.status == Some("FAILED"))
      && (step.invalidationId.Some? ==> step.invalidationId == invalidationId)
      && (step.response.code == 200 <==>
            raw.NoResponse? || raw.status == Some("SUCCESS") || raw.status == Some("PENDING") || raw.status.None?)
      && (step.response.code == 200 || step.response.code == 400)
  {
  }

  /** Once a poll saw no response, SUCCESS or FAILED, the next poll answers 404 without asking
      the CDN; and a FAILED status is answered with 400. */
  lemma PollingStopsAfterFinalStatus(invalidationId: Option<string>, requests: seq<string>, cdn: string -> CdnStatus)
    requires TruthyOpt(invalidationId)
    requires cdn(invalidationId.value) in {NoResponse, CdnResponse(Some("SUCCESS")), CdnResponse(Some("FAILED"))}
    ensures var first := FlushStatusSpec(invalidationId, requests, cdn);
      && FlushStatusSpec(first.invalidationId, first.requests, cdn) ==
           FlushStep(FlushResponse(404, None), None, requests + [invalidationId.value])
      && (cdn(invalidationId.value) == CdnResponse(Some("FAILED")) ==> first.response.code == 400)
  {
  }

  // ---------------------------------------------------------------------------
  // The activity log's `number` argument

  /** The number of records returned when the argument is not given. */
  const DefaultActivityLogNumber: int := 100

  /** `is_numeric`, on integer strings: optional minus sign, then decimal digits. */
  predicate IsIntegerString(s: string) {
    IsDigits(s) || (|s| > 1 && s[0] == '-' && IsDigits(s[1..]))
  }

  /** The `number` argument's validate callback. */
  predicate ValidNumber(param: string) {
    IsIntegerString(param) && 1 <= StringToInt(param) <= 1000
  }

  /** The record limit the query uses: the default when the argument is absent, its integer
      value when it validates, and None when the request is refused. */
  function ActivityLogLimit(number: Option<string>): (r: Option<int>)
    ensures r.Some? ==> 1 <= r.value <= 1000
    ensures number.None? ==> r == Some(DefaultActivityLogNumber)
  {
    if number.None? then Some(DefaultActivityLogNumber)
    else if ValidNumber(number.value) then Some(StringToInt(number.value))
    else None
  }

  /** The decimal form of an integer is accepted exactly when it lies between 1 and 1000. */
  lemma ValidNumberExactly(n: int)
    ensures ValidNumber(IntToString(n)) <==> 1 <= n <= 1000
    ensures ValidNumber(IntToString(n)) ==> ActivityLogLimit(Some(IntToString(n))) == Some(n)
  {
    StringToIntOfIntToString(n);
    if n < 0 {
      assert IntToString(n)[1..] == NatToString(-n);
    }
  }
}
