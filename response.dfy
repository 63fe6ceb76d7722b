/**
 * The callback every HTTP attempt ends in (`_tryRequest`): given what the
 * transport delivered, it either rejects the attempt (an API error, a
 * failed request, a missing required field) or resolves it with the
 * body, or with one field of it, depending on raw mode.
 */
module Response {
  import opened Wrappers
  import opened JsValue

  datatype Outcome =
    | ApiError(code: Value, message: Value)   // a non-2xx status with a body
    | RequestFailed(error: string)            // the transport reported an error
    | MissingField(field: string)             // a 2xx body without the declared field
    | Resolved(value: Value)                  // the attempt succeeds with this value
    | TypeError                               // the callback itself throws: it read a property of undefined

  predicate IsSuccessStatus(status: int) {
    200 <= status <= 299
  }

  /** `$config.required` is truthy. */
  predicate DeclaresField(required: Option<string>) {
    required.Some? && required.value != ""
  }

  /** `$config.raw || $self._raw && $config.raw !== false`. */
  predicate RawMode(rawOverride: Value, clientRaw: Value) {
    Truthy(rawOverride) || (Truthy(clientRaw) && rawOverride != Bool(false))
  }

  /** `v[0]` on a value that is not nullish. */
  function FirstOf(v: Value): Value {
    match v
    case Arr(items) => if |items| > 0 then items[0] else Undefined
    case Str(s) => if |s| > 0 then Str([s[0]]) else Undefined
    case _ => Get(v, "0")
  }

  /** `body.errors[0] || {}` as written: None when `body.errors` is nullish and indexing it throws. */
  function FirstErrorAsWritten(body: Value): (e: Option<Value>)
    ensures e.None? <==> Nullish(Get(body, "errors"))
    ensures e.Some? ==> Truthy(e.value)
  {
    var errors := Get(body, "errors");
    if Nullish(errors) then None else Some(Or(FirstOf(errors), EmptyObject))
  }

  /** The same lookup with a missing error list read like an empty one. */
  function FirstError(body: Value): (e: Value)
    ensures Truthy(e)
    ensures FirstErrorAsWritten(body).Some? ==> e == FirstErrorAsWritten(body).value
  {
    var errors := Get(body, "errors");
    Or(if Nullish(errors) then Undefined else FirstOf(errors), EmptyObject)
  }

  function ApiErrorOf(e: Value): Outcome {
    ApiError(Get(e, "code"), Get(e, "message"))
  }

  /** The branches after the API-error test, shared by both versions of the callback. */
  function Settle(error: Option<string>, body: Value, required: Option<string>,
                  rawOverride: Value, clientRaw: Value): Outcome
  {
    if error.Some? then RequestFailed(error.value)
    else if DeclaresField(required) && Nullish(body) then TypeError
    else if DeclaresField(required) && !Truthy(Get(body, required.value)) then MissingField(required.value)
    else if RawMode(rawOverride, clientRaw) then Resolved(Or(body, EmptyObject))
    else if DeclaresField(required) then Resolved(Or(Get(body, required.value), EmptyObject))
    else Resolved(Or(body, EmptyObject))
  }

  predicate IsErrorResponse(error: Option<string>, status: int, body: Value) {
    error.None? && Truthy(body) && !IsSuccessStatus(status)
  }

  /** The callback exactly as the source has it. */
  function ClassifyAsWritten(error: Option<string>, status: int, body: Value, required: Option<string>,
                             rawOverride: Value, clientRaw: Value): (r: Outcome)
    ensures IsErrorResponse(error, status, body) && Nullish(Get(body, "errors")) ==> r == TypeError
  {
    if IsErrorResponse(error, status, body) then
      match FirstErrorAsWritten(body)
      case None => TypeError
      case Some(e) => ApiErrorOf(e)
    else Settle(error, body, required, rawOverride, clientRaw)
  }

  /**
   * The callback with the error list guarded: the outcome of one attempt,
   * in the source's order of priority.
   */
  function Classify(error: Option<string>, status: int, body: Value, required: Option<string>,
                    rawOverride: Value, clientRaw: Value): (r: Outcome)
    // 1. any non-2xx response with a body is an API error, carrying errors[0]'s code and message
    ensures r.ApiError? <==> IsErrorResponse(error, status, body)
    ensures r.ApiError? ==> r.code == Get(FirstError(body), "code") && r.message == Get(FirstError(body), "message")
    // 2. otherwise a transport error fails the request
    ensures r.RequestFailed? <==> error.Some?
    ensures r.RequestFailed? ==> r.error == error.value
    // 3. otherwise a declared field that the body lacks (or holds falsy) is missing
    ensures r.MissingField? <==> !IsErrorResponse(error, status, body) && error.None? && DeclaresField(required)
                                 && !Nullish(body) && !Truthy(Get(body, required.value))
    ensures r.MissingField? ==> r.field == required.value
    // an empty 2xx body with a declared field still makes the callback throw
    ensures r.TypeError? <==> !IsErrorResponse(error, status, body) && error.None? && DeclaresField(required)
                              && Nullish(body)
    // 4. otherwise the attempt resolves, never with a falsy value
    ensures r.Resolved? ==> Truthy(r.value)
    ensures r.Resolved? && RawMode(rawOverride, clientRaw) ==> r.value == Or(body, EmptyObject)
    ensures r.Resolved? && !RawMode(rawOverride, clientRaw) && DeclaresField(required)
      ==> r.value == Get(body, required.value)
    ensures r.Resolved? && !RawMode(rawOverride, clientRaw) && !DeclaresField(required)
      ==> r.value == Or(body, EmptyObject)
  {
    if IsErrorResponse(error, status, body) then ApiErrorOf(FirstError(body))
    else Settle(error, body, required, rawOverride, clientRaw)
  }

  /** The guard changes nothing except where the source would throw on a missing error list. */
  lemma ClassifyRefinesAsWritten(error: Option<string>, status: int, body: Value, required: Option<string>,
                                 rawOverride: Value, clientRaw: Value)
    ensures var written := ClassifyAsWritten(error, status, body, required, rawOverride, clientRaw);
      (written != TypeError || !IsErrorResponse(error, status, body))
      ==> written == Classify(error, status, body, required, rawOverride, clientRaw)
  {
  }

  /** A per-call `true` or `false` decides raw mode; anything else falls back to the client's setting unless truthy. */
  lemma RawModePrecedence(clientRaw: Value)
    ensures RawMode(Bool(true), clientRaw)
    ensures !RawMode(Bool(false), clientRaw)
    ensures RawMode(Undefined, clientRaw) <==> Truthy(clientRaw)
    ensures forall o :: !Truthy(o) && o != Bool(false) ==> (RawMode(o, clientRaw) <==> Truthy(clientRaw))
  {
  }

  /** The message of the `Error` an attempt rejects with. */
  function Message(o: Outcome): string
    requires o.ApiError? || o.RequestFailed? || o.MissingField?
  {
    match o
    case ApiError(code, message) => "\nAPI Error: " + (ToJsString(code) + " - " + ToJsString(message))
    case RequestFailed(e) => "Request Failed: " + e
    case MissingField(f) => "\nAPI Error: Response was missing required field (" + f + ")"
  }

  // ---------------------------------------------------------------------
  // Responses from the CloudFlare API

  /** `{result: {id: "x"}, success: true}` */
  function ZoneBody(): Value {
    Obj(map["result" := Obj(map["id" := Str("x")]), "success" := Bool(true)])
  }

  /** Without raw mode a call declaring `result` resolves with that field; with a per-call `true`, with the whole body. */
  lemma RawModeExample()
    ensures Classify(None, 200, ZoneBody(), Some("result"), Undefined, Bool(false))
         == Resolved(Obj(map["id" := Str("x")]))
    ensures Classify(None, 200, ZoneBody(), Some("result"), Bool(true), Bool(false))
         == Resolved(ZoneBody())
  {
    assert Get(ZoneBody(), "result") == Obj(map["id" := Str("x")]);
  }

  /** A body without the declared field rejects, naming it. */
  lemma MissingResultExample()
    ensures Classify(None, 200, Obj(map["success" := Bool(true)]), Some("result"), Undefined, Bool(false))
         == MissingField("result")
    ensures Message(MissingField("result")) == "\nAPI Error: Response was missing required field (result)"
  {
    assert Get(Obj(map["success" := Bool(true)]), "result") == Undefined;
  }

  /** A 400 with `{errors: [{code: 1003, message: "Invalid zone"}]}` rejects with that code and message. */
  lemma ApiErrorExample(required: Option<string>, rawOverride: Value, clientRaw: Value)
    ensures var body := Obj(map["errors" := Arr([Obj(map["code" := Num(1003), "message" := Str("Invalid zone")])])]);
      var r := Classify(None, 400, body, required, rawOverride, clientRaw);
      && r == ApiError(Num(1003), Str("Invalid zone"))
      && Message(r) == "\nAPI Error: 1003 - Invalid zone"
  {
    ApiErrorOutcome(required, rawOverride, clientRaw);
    ApiErrorMessageExample();
  }

  lemma ApiErrorOutcome(required: Option<string>, rawOverride: Value, clientRaw: Value)
    ensures var body := Obj(map["errors" := Arr([Obj(map["code" := Num(1003), "message" := Str("Invalid zone")])])]);
      Classify(None, 400, body, required, rawOverride, clientRaw) == ApiError(Num(1003), Str("Invalid zone"))
  {
    var e := Obj(map["code" := Num(1003), "message" := Str("Invalid zone")]);
    var body := Obj(map["errors" := Arr([e])]);
    assert FirstError(body) == e;
  }

  lemma ApiErrorMessageExample()
    ensures Message(ApiError(Num(1003), Str("Invalid zone"))) == "\nAPI Error: 1003 - Invalid zone"
  {
    ErrorCodeString();
  }

  lemma ErrorCodeString()
    ensures ToJsString(Num(1003)) == "1003"
  {
    assert NatToString(1) == "1";
    assert NatToString(10) == "10";
    assert NatToString(100) == "100";
    assert NatToString(1003) == "1003";
  }

  /** An error page that is not JSON (a 502 from a proxy, say) makes the callback as written throw. */
  lemma ErrorPageThrows(required: Option<string>, rawOverride: Value, clientRaw: Value)
    ensures ClassifyAsWritten(None, 502, Str("Bad Gateway"), required, rawOverride, clientRaw) == TypeError
    ensures Classify(None, 502, Str("Bad Gateway"), required, rawOverride, clientRaw)
         == ApiError(Undefined, Undefined)
  {
  }
}
