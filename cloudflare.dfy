/**
 * The CloudFlare v4 client: its configuration, the in-place shaping of a
 * call payload (`_request`), validation strictly before any request
 * (`_validateAndMakeRequest`), and the construction of the HTTP request
 * (`_tryRequest`). What the transport then delivers is classified by
 * `Client.Attempt`: `Response.Classify` with the call's own `required`
 * and `raw` and the client's `raw` setting as the fallback.
 */
module CloudFlare {
  import opened Wrappers
  import opened JsValue
  import PathTemplate
  import Pagination
  import Response

  const ApiUrl: string := "https://api.cloudflare.com/client/v4"

  /** The fields of a call payload at one moment. */
  datatype Call = Call(
    path: string,
    callee: string,
    verb: string,
    required: Option<string>,
    params: map<string, Value>,
    query: Value,
    body: Value,
    raw: Value)

  /**
   * The request options handed to the HTTP transport: verb, URL, headers
   * and JSON body. The options carry no query of their own; `query`
   * records the object the URL's query string encodes.
   */
  datatype HttpRequest = HttpRequest(
    verb: string,
    url: string,
    query: map<string, Value>,
    headers: map<string, Value>,
    body: map<string, Value>)

  /** A validation failure, or the request that goes out. */
  datatype Dispatch = Rejected(message: string) | Sent(request: HttpRequest)

  /** The payload as `_request` leaves it: raw override set, query paginated, body stripped of what moved. */
  function Shaped(call: Call, rawOverride: Value, perPage: Value): (r: Call)
    // only query, body and raw change; path, callee, verb, required and params are kept
    ensures r.path == call.path && r.callee == call.callee && r.verb == call.verb
    ensures r.required == call.required && r.params == call.params
    ensures r.raw == rawOverride
  {
    call.(raw := rawOverride,
          query := Pagination.PaginatedQuery(call.query, call.body, perPage),
          body := Pagination.RemainingBody(call.query, call.body))
  }

  /** `$config.query = extend({}, $config.query)` and the same for the body. */
  function Normalized(call: Call): (r: Call)
    // query and body become plain objects with the same own properties; nothing else changes
    ensures r.query.Obj? && r.body.Obj?
    ensures OwnProps(r.query) == OwnProps(call.query) && OwnProps(r.body) == OwnProps(call.body)
    ensures r.(query := call.query, body := call.body) == call
  {
    call.(query := Obj(OwnProps(call.query)), body := Obj(OwnProps(call.body)))
  }

  /** The request URL; `stringify` stands for `querystring.stringify`. */
  function Url(path: string, params: map<string, Value>, query: map<string, Value>,
               stringify: map<string, Value> -> string): string
  {
    ApiUrl + "/" + PathTemplate.Resolve(path, params)
    + (if |query| > 0 then "?" + stringify(query) else "")
  }

  /** The request `_tryRequest` issues for a payload, with the credentials as headers. */
  function Outgoing(call: Call, key: Value, email: Value, stringify: map<string, Value> -> string): HttpRequest {
    var query := OwnProps(call.query);
    HttpRequest(call.verb, Url(call.path, call.params, query, stringify), query,
                map["X-Auth-Key" := key, "X-Auth-Email" := email], OwnProps(call.body))
  }

  const ValidationPrefix: string := "CloudFlareApiError: validation error when calling \""

  /** The rejection of a call that fails validation; `annotation` is the validator's own report. */
  function ValidationMessage(call: Call, annotation: string): (m: string)
    // it opens with the callee and the verb and closes with the validator's report
    ensures ValidationPrefix + call.callee + "\"\n[" + call.verb + "] /" <= m
    ensures |annotation| <= |m| && m[|m| - |annotation|..] == annotation
  {
    ValidationPrefix + call.callee + "\"\n[" + call.verb + "] /"
    + PathTemplate.Resolve(call.path, call.params) + "\n" + annotation
  }

  /** Milliseconds waited after failed attempt number `attempt`. */
  function RetryDelay(attempt: nat): (ms: nat)
    // whole seconds, one per attempt
    ensures ms % 1000 == 0 && ms / 1000 == attempt
  {
    attempt * 1000
  }

  // ---------------------------------------------------------------------
  // Objects the source updates in place

  class Payload {
    var path: string
    var callee: string
    var verb: string
    var required: Option<string>
    var params: map<string, Value>
    var query: Value
    var body: Value
    var raw: Value

    constructor (call: Call)
      ensures View() == call
    {
      path, callee, verb, required := call.path, call.callee, call.verb, call.required;
      params, query, body, raw := call.params, call.query, call.body, call.raw;
    }

    function View(): Call
      reads this
    {
      Call(path, callee, verb, required, params, query, body, raw)
    }
  }

  class Client {
    const key: Value
    const email: Value
    const itemsPerPage: Value
    const maxRetries: Value
    const raw: Value

    /** `initialize`: each falsy option falls back to its default. */
    constructor (config: map<string, Value>)
      ensures key == Get(Obj(config), "key") && email == Get(Obj(config), "email")
      ensures itemsPerPage == Or(Get(Obj(config), "itemsPerPage"), Num(100))
      ensures maxRetries == Or(Get(Obj(config), "maxRetries"), Num(1))
      ensures raw == Or(Get(Obj(config), "raw"), Bool(false))
    {
      key := Get(Obj(config), "key");
      email := Get(Obj(config), "email");
      itemsPerPage := Or(Get(Obj(config), "itemsPerPage"), Num(100));
      maxRetries := Or(Get(Obj(config), "maxRetries"), Num(1));
      raw := Or(Get(Obj(config), "raw"), Bool(false));
    }

    /**
     * `_request`: shapes the payload in place, then validates it and, only
     * if it is valid, builds the request. `valid` and `annotate` stand for
     * the schema validator and its error report.
     */
    method Request(payload: Payload, rawOverride: Value, valid: Call -> bool, annotate: Call -> string,
                   stringify: map<string, Value> -> string) returns (d: Dispatch)
      modifies payload
      ensures var shaped := Shaped(old(payload.View()), rawOverride, itemsPerPage);
        && (d.Rejected? <==> !valid(shaped))
        && (d.Rejected? ==> d.message == ValidationMessage(shaped, annotate(shaped)) && payload.View() == shaped)
        && (d.Sent? ==> d.request == Outgoing(shaped, key, email, stringify) && payload.View() == Normalized(shaped))
    {
      Paginate(payload, rawOverride);
      d := ValidateAndMakeRequest(payload, valid, annotate, stringify);
    }

    /** The body of `_request` up to validation. */
    method Paginate(payload: Payload, rawOverride: Value)
      modifies payload
      ensures payload.View() == Shaped(old(payload.View()), rawOverride, itemsPerPage)
    {
      ghost var before := payload.View();
      var hasQuery := Truthy(payload.query);
      var hasBody := Truthy(payload.body);
      payload.raw := rawOverride;
      if hasQuery {
        payload.query := Obj(Pagination.Defaults(itemsPerPage) + OwnProps(payload.query));
      }
      if hasBody {
        if hasQuery && Truthy(Get(payload.body, Pagination.PerPage)) {
          payload.query := Obj(payload.query.props[Pagination.PerPage := Get(payload.body, Pagination.PerPage)]);
          payload.body := Obj(payload.body.props - {Pagination.PerPage});
        }
        if hasQuery && Truthy(Get(payload.body, Pagination.Page)) {
          payload.query := Obj(payload.query.props[Pagination.Page := Get(payload.body, Pagination.Page)]);
          payload.body := Obj(payload.body.props - {Pagination.Page});
        }
      }
      ShapedByStages(before, rawOverride, itemsPerPage, payload.View());
    }

    /** `_validateAndMakeRequest`: no request is built unless the payload is valid. */
    method ValidateAndMakeRequest(payload: Payload, valid: Call -> bool, annotate: Call -> string,
                                  stringify: map<string, Value> -> string) returns (d: Dispatch)
      modifies payload
      ensures d.Rejected? <==> !valid(old(payload.View()))
      ensures d.Rejected? ==> d.message == ValidationMessage(old(payload.View()), annotate(old(payload.View())))
                              && payload.View() == old(payload.View())
      ensures d.Sent? ==> d.request == Outgoing(old(payload.View()), key, email, stringify)
                          && payload.View() == Normalized(old(payload.View()))
    {
      var call := payload.View();
      if valid(call) {
        var request := TryRequest(payload, stringify);
        d := Sent(request);
      } else {
        d := Rejected(ValidationMessage(call, annotate(call)));
      }
    }

    /**
     * What one attempt of a call ends in: the response callback with the
     * call's `required` and `raw`, and the client's `raw` as the fallback.
     */
    function Attempt(call: Call, error: Option<string>, status: int, body: Value): (r: Response.Outcome)
      ensures r.ApiError? <==> Response.IsErrorResponse(error, status, body)
      ensures r.RequestFailed? <==> error.Some?
      // a per-call `raw: true`, or a raw client and no per-call `raw: false`, resolves with the whole body
      ensures r.Resolved? && (Truthy(call.raw) || (Truthy(raw) && call.raw != Bool(false)))
        ==> r.value == Or(body, EmptyObject)
      // a per-call `raw: false`, or neither raw, resolves with the declared field
      ensures r.Resolved? && (call.raw == Bool(false) || (!Truthy(raw) && !Truthy(call.raw)))
              && Response.DeclaresField(call.required)
        ==> r.value == Get(body, call.required.value)
    {
      Response.RawModePrecedence(raw);
      Response.Classify(error, status, body, call.required, call.raw, raw)
    }

    /** `_tryRequest` up to the transport: copies query and body, builds the URL. */
    method TryRequest(payload: Payload, stringify: map<string, Value> -> string) returns (request: HttpRequest)
      modifies payload
      ensures payload.View() == Normalized(old(payload.View()))
      ensures request == Outgoing(old(payload.View()), key, email, stringify)
    {
      payload.query := Obj(OwnProps(payload.query));
      payload.body := Obj(OwnProps(payload.body));
      var url := Url(payload.path, payload.params, payload.query.props, stringify);
      request := HttpRequest(payload.verb, url, payload.query.props,
                             map["X-Auth-Key" := key, "X-Auth-Email" := email], payload.body.props);
    }
  }

  /** The state `Paginate` reaches, stage by stage, is the one `Shaped` describes. */
  lemma ShapedByStages(before: Call, rawOverride: Value, perPage: Value, after: Call)
    requires var hasQuery, hasBody := Truthy(before.query), Truthy(before.body);
      var q1 := if hasQuery then Obj(Pagination.Defaults(perPage) + OwnProps(before.query)) else before.query;
      var movePerPage := hasBody && hasQuery && Truthy(Get(before.body, Pagination.PerPage));
      var q2 := if movePerPage then Obj(q1.props[Pagination.PerPage := Get(before.body, Pagination.PerPage)]) else q1;
      var b2 := if movePerPage then Obj(before.body.props - {Pagination.PerPage}) else before.body;
      var movePage := hasBody && hasQuery && Truthy(Get(b2, Pagination.Page));
      var q3 := if movePage then Obj(q2.props[Pagination.Page := Get(b2, Pagination.Page)]) else q2;
      var b3 := if movePage then Obj(b2.props - {Pagination.Page}) else b2;
      after == before.(raw := rawOverride, query := q3, body := b3)
    ensures after == Shaped(before, rawOverride, perPage)
  {
    var query, body := before.query, before.body;
    var movesPerPage := Pagination.MovesFromBody(query, body, Pagination.PerPage);
    var movesPage := Pagination.MovesFromBody(query, body, Pagination.Page);
    var moved := Pagination.Moved(query, body);
    if !Truthy(query) || !Truthy(body) || !body.Obj? {
      assert moved == map[];
      assert body.Obj? ==> body.props - moved.Keys == body.props;
    } else {
      var start := Pagination.Defaults(perPage) + OwnProps(query);
      var afterPerPage := if movesPerPage then start[Pagination.PerPage := Get(body, Pagination.PerPage)] else start;
      var bodyAfterPerPage := if movesPerPage then body.props - {Pagination.PerPage} else body.props;
      assert Get(Obj(bodyAfterPerPage), Pagination.Page) == Get(body, Pagination.Page);
      MovedQuery(start, query, body);
      MovedBody(query, body);
    }
  }

  /** Applying the two moves one after the other is the same as extending by `Moved`. */
  lemma MovedQuery(start: map<string, Value>, query: Value, body: Value)
    ensures var movesPerPage := Pagination.MovesFromBody(query, body, Pagination.PerPage);
      var movesPage := Pagination.MovesFromBody(query, body, Pagination.Page);
      var afterPerPage := if movesPerPage then start[Pagination.PerPage := Get(body, Pagination.PerPage)] else start;
      var afterPage := if movesPage then afterPerPage[Pagination.Page := Get(body, Pagination.Page)] else afterPerPage;
      afterPage == start + Pagination.Moved(query, body)
  {
  }

  lemma MovedBody(query: Value, body: Value)
    requires body.Obj?
    ensures var movesPerPage := Pagination.MovesFromBody(query, body, Pagination.PerPage);
      var movesPage := Pagination.MovesFromBody(query, body, Pagination.Page);
      var afterPerPage := if movesPerPage then body.props - {Pagination.PerPage} else body.props;
      var afterPage := if movesPage then afterPerPage - {Pagination.Page} else afterPerPage;
      afterPage == body.props - Pagination.Moved(query, body).Keys
  {
  }

  // ---------------------------------------------------------------------
  // Properties of the pipeline

  /** A call with a query and no pagination of its own goes out with `page: 1` and the client's page size. */
  lemma DefaultPaginationSent(call: Call, rawOverride: Value, perPage: Value, key: Value, email: Value,
                              stringify: map<string, Value> -> string)
    requires Truthy(call.query)
    requires Pagination.Page !in OwnProps(call.query) && !Truthy(Get(call.body, Pagination.Page))
    requires Pagination.PerPage !in OwnProps(call.query) && !Truthy(Get(call.body, Pagination.PerPage))
    ensures var request := Outgoing(Normalized(Shaped(call, rawOverride, perPage)), key, email, stringify);
      && Pagination.Page in request.query && request.query[Pagination.Page] == Num(1)
      && Pagination.PerPage in request.query && request.query[Pagination.PerPage] == perPage
  {
  }

  /** A truthy body `page`/`per_page` goes out in the query, not in the body. */
  lemma BodyPaginationSent(call: Call, k: string, rawOverride: Value, perPage: Value, key: Value, email: Value,
                           stringify: map<string, Value> -> string)
    requires Truthy(call.query) && Pagination.IsPaginationKey(k) && Truthy(Get(call.body, k))
    ensures var request := Outgoing(Normalized(Shaped(call, rawOverride, perPage)), key, email, stringify);
      && k in request.query && request.query[k] == Get(call.body, k)
      && k !in request.body
  {
    assert Pagination.MovesFromBody(call.query, call.body, k);
  }

  /** A call without a query goes out with no pagination and a URL without a query string. */
  lemma NoQueryNoPagination(call: Call, rawOverride: Value, perPage: Value, key: Value, email: Value,
                            stringify: map<string, Value> -> string)
    requires !Truthy(call.query)
    ensures var request := Outgoing(Normalized(Shaped(call, rawOverride, perPage)), key, email, stringify);
      && request.query == map[]
      && request.url == ApiUrl + "/" + PathTemplate.Resolve(call.path, call.params)
      && request.body == OwnProps(call.body)
  {
    assert !call.query.Obj?;
    Pagination.QueryStringPresence(call.query, call.body, perPage);
  }

  /** The URL read back at its first `?`: `(url up to it, text after it)`, or the whole URL and None. */
  function SplitAtQuery(url: string): (string, Option<string>) {
    if url == [] then ([], None)
    else if url[0] == '?' then ([], Some(url[1..]))
    else
      var (before, after) := SplitAtQuery(url[1..]);
      ([url[0]] + before, after)
  }

  lemma {:induction false} SplitAfterPlainText(text: string, rest: string)
    requires '?' !in text
    ensures SplitAtQuery(text + rest) == (text + SplitAtQuery(rest).0, SplitAtQuery(rest).1)
    decreases |text|
  {
    if text == [] {
      assert text + rest == rest && text + SplitAtQuery(rest).0 == SplitAtQuery(rest).0;
    } else {
      assert (text + rest)[0] == text[0] && (text + rest)[1..] == text[1..] + rest;
      SplitAfterPlainText(text[1..], rest);
      assert text[0] != '?';
      assert [text[0]] + (text[1..] + SplitAtQuery(rest).0) == text + SplitAtQuery(rest).0;
    }
  }

  /**
   * When the resolved path holds no `?`, the URL splits back into the base
   * URL with the resolved path, and the query string, present exactly
   * when the query has a key.
   */
  lemma UrlRoundTrip(path: string, params: map<string, Value>, query: map<string, Value>,
                     stringify: map<string, Value> -> string)
    requires '?' !in PathTemplate.Resolve(path, params)
    ensures SplitAtQuery(Url(path, params, query, stringify))
         == (ApiUrl + "/" + PathTemplate.Resolve(path, params),
             if |query| > 0 then Some(stringify(query)) else None)
  {
    var base := ApiUrl + "/" + PathTemplate.Resolve(path, params);
    var tail := if |query| > 0 then "?" + stringify(query) else "";
    assert '?' !in ApiUrl + "/";
    assert '?' !in base;
    SplitAfterPlainText(base, tail);
    if |query| > 0 {
      assert tail[0] == '?' && tail[1..] == stringify(query);
    }
    assert base + [] == base;
  }

  /**
   * The validation error of `zoneDNSRecordGet` (callee string `zoneGet`)
   * names the call, its verb and its resolved path.
   */
  lemma ValidationMessageExample(zone: string, record: string, query: Value, body: Value, raw: Value,
                                 annotation: string)
    ensures ValidationMessage(
              Call("zones/:zone_identifier/dns_records/:identifier", "zoneGet", "GET", Some("result"),
                   map["zone_identifier" := Str(zone), "identifier" := Str(record)], query, body, raw),
              annotation)
         == ValidationPrefix + "zoneGet" + "\"\n[" + "GET" + "] /"
            + ("zones/" + zone + "/dns_records/" + record) + "\n" + annotation
  {
    PathTemplate.ResolveZoneRecordPath(zone, record);
  }

  /** Called without its arguments, the same endpoint reports the path with `undefined` in their place. */
  lemma ValidationMessageUndefinedArguments(query: Value, body: Value, raw: Value, annotation: string)
    ensures ValidationMessage(
              Call("zones/:zone_identifier/dns_records/:identifier", "zoneGet", "GET", Some("result"),
                   map["zone_identifier" := Undefined, "identifier" := Undefined], query, body, raw),
              annotation)
         == ValidationPrefix + "zoneGet" + "\"\n[" + "GET" + "] /"
            + "zones/undefined/dns_records/undefined" + "\n" + annotation
  {
    PathTemplate.ResolveZoneRecordPathUndefinedParams();
  }

  /** The wait grows by one second per failed attempt, starting at one second. */
  lemma RetryDelaySchedule()
    ensures RetryDelay(1) == 1000 && RetryDelay(2) == 2000
    ensures forall attempt: nat :: RetryDelay(attempt + 1) == RetryDelay(attempt) + 1000
  {
  }
}
