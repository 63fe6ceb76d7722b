# CloudFlare v4 API client: the request pipeline

This is a Dafny model of the core of `node-cloudflare`, a JavaScript client for the
CloudFlare v4 REST API. Every endpoint method of the client builds a call payload and
passes it through one shared pipeline. The model covers that pipeline:

- **Client configuration** (`initialize`): the API key and e-mail address, a page size
  (default 100), a retry count (default 1) and a raw-mode flag (default `false`). A falsy
  option falls back to its default, as JavaScript's `||` does.
- **Request shaping** (`_request`): the payload is changed in place.
  - The per-call raw override is recorded.
  - A call with a query gets `page: 1` and `per_page: <page size>` beneath its own query
    keys.
  - A call with both a query and a body moves a truthy `per_page` and a truthy `page` out
    of the body into the query.
- **Validation before any request** (`_validateAndMakeRequest`): a payload that fails
  validation is rejected with a message naming the callee, the HTTP verb and the resolved
  path, and no request is built.
- **Request construction** (`_tryRequest`): query and body are copied out as plain
  objects. The URL is `https://api.cloudflare.com/client/v4/` followed by the resolved
  path, and then `?` and the encoded query when the query has a key. The credentials go
  in the `X-Auth-Key` and `X-Auth-Email` headers. Failed attempts wait `attempt * 1000`
  ms before the next one.
- **Path templating** (`_resolvePath`): the exact behaviour of the global,
  case-insensitive replace `:([a-z0-9_-]+)\b`.
  - A name is the longest run of letters, digits, `_` and `-`, cut back to its last
    letter, digit or `_`.
  - A token with an own parameter of that name is replaced by `String(value)`. A key
    that is present but `undefined` therefore gives `undefined`, and a number gives its
    decimal digits. Any other token is kept verbatim.
  - Substituted text is never scanned again.
- **Response classification** (the `request` callback), in the source's order of
  priority:
  1. a non-2xx status with a body rejects with the first API error's code and message;
  2. a transport error rejects;
  3. a declared field that the body lacks rejects;
  4. otherwise the attempt resolves with the whole body (raw mode) or with the declared
     field, never with a falsy value.

The modules are:

- `JsValue`: JavaScript values, truthiness, `||`, `String(x)`.
- `PathTemplate`
- `Pagination`
- `Response`
- `CloudFlare`: the `Payload` and `Client` classes and the pipeline.

`Payload` is a class whose fields the client methods update in place, as the source
mutates its payload object. `Client` holds what `initialize` sets. Its methods are proved
against the functions `Shaped`, `Normalized` and `Outgoing`. The properties of those
functions are proved as lemmas.

Three collaborators are parameters of the model:
- the validator, a predicate on the shaped payload;
- its error report (`annotate()`), a function to strings;
- the query-string encoder (`querystring.stringify`), a function from the query object to
  a string.

Where the library's documented behaviour and its code differ, the model follows the
code:
- A falsy `page` or `per_page` in the body (`0`, `""`) is not moved. It stays in the body
  while the query still gets the default (`Pagination.FalsyBodyPageStays`). So "a
  pagination key is never in both query and body" holds only for truthy values.
- An absent query or body becomes `{}` only in `_tryRequest`, after validation. The
  validator sees the payload as `_request` left it.

## Model

| member | source | states |
|---|---|---|
| `CloudFlare.Client.constructor` | index.js:17-24 | key and e-mail are taken as given. Page size, retry count and raw flag are the option when it is truthy, else 100, 1 and `false`. |
| `JsValue.OrDefault` | index.js:21-23 | `x \|\| d` with a truthy default is always truthy, and equals `x` exactly when `x` is truthy. |
| `CloudFlare.Client.Paginate` | index.js:29-54 | The payload after the in-place updates is `Shaped(old payload)`: raw override recorded, query paginated as `Pagination.PaginatedQuery` says, body reduced as `Pagination.RemainingBody` says. |
| `CloudFlare.ShapedByStages` | index.js:37-54 | The three in-place stages, in order: defaults under the caller's query, then the `per_page` move, then the `page` move. Together they produce `Shaped`. |
| `CloudFlare.Shaped` | index.js:35-54 | The payload as `_request` leaves it. Query and body are `PaginatedQuery` and `RemainingBody`, `raw` is the per-call override. Path, callee, verb, `required` and params are kept. |
| `Pagination.Moved` | index.js:45-53 | A key is handed from the body to the query iff the call has a query and a body, the key is `page` or `per_page`, and the body's value for it is truthy. The handed-over value is the body's. |
| `Pagination.PaginatedQuery` | index.js:37-53 | No query: nothing is injected. With a query, its keys are the caller's keys plus `page` and `per_page`. A moved body value wins. Every other caller key keeps its value. A pagination key nobody supplied defaults to `1` or the client page size. |
| `Pagination.RemainingBody` | index.js:44-54 | Moved keys are gone from the body. Every other key, a falsy `page`/`per_page` included, keeps its presence and value. With a query, no truthy pagination value is left in the body. No query, or a body that is not an object: the body is unchanged. |
| `Pagination.QueryStringPresence` | index.js:37-42 | The shaped query has a key iff the call had a query, so the URL carries a query string exactly then. |
| `Pagination.FalsyBodyPageStays` | index.js:44-53 | Body `{page: 0}` with query `{}`: the query is `{page: 1, per_page: n}` and the body keeps `page: 0`. |
| `CloudFlare.Client.Request` | index.js:28-66 | `_request` as a whole. The shaped payload is validated. It is rejected iff the validator refuses it, with the validation message and the payload left shaped. Otherwise the request built from the shaped payload is sent, and the payload is left normalised. |
| `CloudFlare.Client.ValidateAndMakeRequest` | index.js:137-148 | Rejected iff the payload is invalid. A rejection carries `ValidationMessage` with the validator's report and leaves the payload unchanged. Otherwise the result is `Outgoing(payload)`, and the payload's query and body are normalised. |
| `CloudFlare.ValidationMessageExample` | index.js:143-145 | For `zoneDNSRecordGet` (callee string `zoneGet`) with both parameters, the rejection text is `CloudFlareApiError: validation error when calling "zoneGet"`, a newline, `[GET] /zones/<zone>/dns_records/<record>`, a newline, then the validator's report. |
| `CloudFlare.Client.TryRequest` | index.js:69-99 | Query and body are replaced by plain-object copies. The request options have the payload's verb, the URL `Url(path, params, query)`, the copied body and the key and e-mail headers. The query travels only inside the URL; the `query` field records the object the URL encodes. |
| `CloudFlare.Normalized` | index.js:70-71 | `extend({}, x)` on query and body: both become plain objects with the same own properties. Nothing else in the payload changes. |
| `CloudFlare.Url` | index.js:73 | No contract of its own. It is the base URL, `/`, `PathTemplate.Resolve(path, params)` and, when the query has a key, `?` and the encoded query. `CloudFlare.UrlRoundTrip` states what it contains. |
| `CloudFlare.Outgoing` | index.js:89-99 | No contract of its own. It holds the request options: verb, `Url(...)`, the `X-Auth-Key`/`X-Auth-Email` headers and the body's own properties. `CloudFlare.Client.TryRequest`, `CloudFlare.DefaultPaginationSent`, `CloudFlare.BodyPaginationSent` and `CloudFlare.NoQueryNoPagination` state its behaviour. |
| `CloudFlare.ValidationMessageUndefinedArguments` | index.js:143-145 | `zoneDNSRecordGet` called without its arguments has both parameter keys bound to `undefined`, so the rejection shows `[GET] /zones/undefined/dns_records/undefined`. |
| `CloudFlare.ValidationMessage` | index.js:143-145 | The rejection text opens with `CloudFlareApiError: validation error when calling "<callee>"`, a newline and `[<verb>] /`, and closes with the validator's report. The resolved path between them is shown by `CloudFlare.ValidationMessageExample` and `CloudFlare.ValidationMessageUndefinedArguments`. |
| `CloudFlare.Client.Attempt` | index.js:101-122 | One attempt of a call is classified with the call's `required` and `raw`, and the client's `raw` as the fallback. API error iff no transport error, a body and a non-2xx status. Transport failure iff there is an error. A per-call `raw: true`, or a raw client with no per-call `raw: false`, resolves with the whole body. A per-call `raw: false`, or neither raw, resolves with the declared field. |
| `CloudFlare.UrlRoundTrip` | index.js:73 | When the resolved path has no `?`, the URL splits at its first `?` into the base URL plus `/` plus the resolved path, and the encoded query. The query string is present exactly when the query has a key. |
| `CloudFlare.SplitAfterPlainText` | index.js:73 | Splitting a text without `?` followed by a rest gives the text prefixed to the rest's split. |
| `CloudFlare.DefaultPaginationSent` | index.js:37-73 | A call with a query and no pagination of its own sends `page: 1` and the client page size. |
| `CloudFlare.BodyPaginationSent` | index.js:45-73 | With a query, a truthy body `page`/`per_page` is sent in the query with the body's value and is absent from the sent body. |
| `CloudFlare.NoQueryNoPagination` | index.js:29-73 | A call without a query sends an empty query and a URL without a query string. The sent body is the own properties of the body as given. |
| `CloudFlare.RetryDelaySchedule` | index.js:76-78 | The wait after attempt 1 is 1000 ms and after attempt 2 it is 2000 ms. Each further attempt adds 1000 ms. |
| `CloudFlare.RetryDelay` | index.js:76-78 | The wait after attempt `n` is a whole number of seconds, exactly `n`, in milliseconds. |
| `PathTemplate.NameLengthIsLongestMatch` | index.js:132 | The captured name is a run of name characters ending at a word boundary with a word character. No longer run ends at a boundary. A text starting with a word character always yields a name. |
| `PathTemplate.NameLength` | index.js:132 | The length of the name the regular expression captures after a `:` (0 when it does not match), never more than the text. Its characterisation is `PathTemplate.NameLengthIsLongestMatch`. |
| `PathTemplate.NameLengthValid` | index.js:132 | What is captured is a non-empty name ending in a word character. |
| `PathTemplate.NameLengthAtLeast` | index.js:132 | A valid name is captured whole, whatever follows it. |
| `PathTemplate.NameLengthAtMost` | index.js:132 | The capture never extends past a character that is not a letter, digit, `_` or `-`. |
| `PathTemplate.NameLengthOfToken` | index.js:132 | A valid name followed by a non-name character or the end is captured exactly. |
| `PathTemplate.TokenizeNamesValid` | index.js:132 | Every token the scan finds carries a name the regular expression can capture. |
| `PathTemplate.RenderTokenize` | index.js:131-135 | The scan loses nothing: the segments spell the template back. |
| `PathTemplate.Resolve` | index.js:131-135 | No contract of its own: `_resolvePath` is `Tokenize`, then `Substitute`. Its behaviour on every template is stated by `PathTemplate.ResolveText`, `PathTemplate.ResolveCapturedToken` and `PathTemplate.ResolveBareColon`, with `PathTemplate.RenderTokenize` for the scan. |
| `PathTemplate.TokenValue` | index.js:133 | No contract of its own. It is the replace callback: `String(params[name])` when `params` has the key as an own property, else the whole match `:name`. `PathTemplate.ResolveToken`, `PathTemplate.NumericParameter` and `PathTemplate.ResolveZoneRecordPathUndefinedParams` state its behaviour. |
| `PathTemplate.SubstituteUnknown` | index.js:133 | Segments whose tokens have no parameter are rendered verbatim. |
| `PathTemplate.ResolveUnknownTokens` | index.js:131-135 | If no token of the template names a parameter, the template comes back unchanged. |
| `PathTemplate.ResolveWithoutParams` | index.js:131-135 | With no parameters the template comes back unchanged. |
| `PathTemplate.NoColonNoToken` | index.js:132 | A template without `:` holds no token. |
| `PathTemplate.ResolveWithoutColon` | index.js:131-135 | A template without `:` is returned unchanged for any parameters. |
| `PathTemplate.ResolveText` | index.js:131-135 | Text without `:` is copied, and what follows it resolves on its own. |
| `PathTemplate.ResolveToken` | index.js:132-133 | `:name` followed by a non-name character becomes `String(params[name])` when the key is present (`hasOwnProperty`), else stays `:name`. The rest resolves on its own, so substituted text is not rescanned. |
| `PathTemplate.ResolveTokenBeforeHyphen` | index.js:132-133 | A `-` right after a name that is not followed by a name character stays outside the token. |
| `PathTemplate.ResolveCapturedToken` | index.js:132-133 | Whenever the capture after `:` is exactly `name`, the token is replaced or kept and the rest resolves separately. |
| `PathTemplate.ResolveTwoTokens` | index.js:131-135 | `text1:name1text2:name2` resolves to `text1`, the value for `name1`, `text2`, then the value for `name2`. |
| `PathTemplate.ResolveZoneRecordPath` | index.js:131-135 | The `zoneDNSRecordGet` template `zones/:zone_identifier/dns_records/:identifier` with both parameters as strings resolves to `zones/<zone>/dns_records/<record>`. |
| `PathTemplate.ResolveZoneRecordPathUndefinedParams` | index.js:132-133 | The same template with both keys present but `undefined`, as an endpoint called without arguments passes them, resolves to `zones/undefined/dns_records/undefined`. |
| `PathTemplate.ResolveZoneRecordPathMissingParam` | index.js:133 | The same template without `identifier` keeps `:identifier` verbatim. |
| `PathTemplate.SubstitutedValueNotRescanned` | index.js:132-133 | `:a` with `a` ↦ `:b` and `b` ↦ `x` resolves to `:b`. |
| `PathTemplate.HyphenInsideName` | index.js:132 | In `:zone-id/x` the name is `zone-id`. |
| `PathTemplate.HyphenAfterName` | index.js:132 | In `:zone-/x` the name is `zone`, and the `-` is copied. |
| `PathTemplate.NumericParameter` | index.js:133 | A number given as a parameter is written in decimal: `:page/x` with `page` ↦ 7 resolves to `7/x`. |
| `PathTemplate.ResolveBareColon` | index.js:132 | A `:` that no name follows (as in `::a` or `:/`) is copied, and the scan resumes right after it. With `ResolveText` and `ResolveCapturedToken` this covers every template. |
| `Response.FirstError` | index.js:102 | `errors[0] \|\| {}` is truthy, and agrees with the source whenever the source does not throw. |
| `Response.FirstErrorAsWritten` | index.js:102 | `body.errors[0] \|\| {}` as written: absent (the read throws) iff `body.errors` is `undefined` or `null`, and truthy otherwise. |
| `Response.ClassifyAsWritten` | index.js:101-123 | As written: a non-2xx response whose body has no `errors` throws a `TypeError` in the callback. |
| `Response.Classify` | index.js:101-123 | In priority order: API error iff no transport error, a body, and a non-2xx status, with `errors[0]`'s code and message. Transport failure iff there is an error. Missing field iff, in neither of those cases, the field is declared and the body is not `undefined`/`null` but holds a falsy value for it. A `TypeError` iff, in neither of those cases, the field is declared and the body is `undefined` or `null`. Otherwise resolved with a truthy value: the body in raw mode, else the declared field. `clientRaw` is the client's `raw` setting. |
| `Response.ClassifyRefinesAsWritten` | index.js:101-123 | The guarded callback agrees with the source's on every input where the source does not throw on a missing error list. |
| `Response.RawModePrecedence` | index.js:116 | A per-call `true` forces raw mode and `false` disables it. Any other falsy override defers to the client's setting. |
| `Response.RawMode` | index.js:116 | A predicate without a contract: `$config.raw \|\| $self._raw && $config.raw !== false`. `Response.RawModePrecedence` states how a per-call value and the client setting combine. |
| `Response.RawModeExample` | index.js:116-119 | A 2xx `{result: {id: "x"}, success: true}` resolves with `{id: "x"}`, or with the whole body under a per-call `raw: true`. |
| `Response.MissingResultExample` | index.js:111-114 | A 2xx body without `result` rejects with `Response was missing required field (result)`. |
| `Response.ApiErrorExample` | index.js:101-106 | A 400 with `errors: [{code: 1003, message: "Invalid zone"}]` rejects with `\nAPI Error: 1003 - Invalid zone`. |
| `Response.Message` | index.js:104-114 | No contract of its own. These are the texts an attempt rejects with: `\nAPI Error: <code> - <message>`, `Request Failed: <error>` and `\nAPI Error: Response was missing required field (<field>)`. `Response.ApiErrorExample` and `Response.MissingResultExample` show them on concrete outcomes. |
| `Response.ErrorPageThrows` | index.js:101-102 | A 502 whose body is the text `Bad Gateway` throws as written. The guarded callback rejects with code and message `undefined`. |
| `JsValue.NatToString` | index.js:105 | The decimal digits of a natural number, without leading zeros, whose value is the number. |
| `JsValue.ToJsString` | index.js:105 | `String(x)` as string concatenation applies it. A string is itself, a non-negative number is its decimal digits (same value), and `undefined` is `undefined`. |

## Left out

- The retry loop of `promise-retryer` is not modelled, nor the retry count's effect on it: the library is not part of this model. Only the delay function it is given is.
- The HTTP transport (`request`), JSON decoding and the promise plumbing (`bluebird`, `promise-object`) appear only as their results. The response callback takes the transport error, status and decoded body as inputs.
- The Joi schema is an opaque parameter: both the per-endpoint schemas and the common fields `_request` adds (index.js:56-64). So are its `annotate()` report and `querystring.stringify`.
- Debug logging (index.js:80-86) and the `.red` colouring of the validation message are terminal decoration and are left out.
- The roughly one hundred endpoint methods are not modelled. The template of `zoneDNSRecordGet`, whose callee string is `zoneGet`, is used as a worked example.
- Numbers are integers. Floating point, `NaN` and `-0` are left out.
- JavaScript's key order is not kept, because objects are maps.
- `CloudFlare.Client.Paginate`: `delete payload.body.per_page` and `delete payload.body.page` (index.js:47, 52) change the caller's own body object. The model's body is a value held by the payload, so this aliasing is not captured. No endpoint passes both a query and a body, so no endpoint reaches these lines.
- `CloudFlare.Client.Paginate`: a truthy query or body that is not a plain object (a string, an array) is treated as having no own properties. The source's `extend` would copy its indices.
- `CloudFlare.Client.Request`: a missing payload (`payload || {}`) is not modelled, because every endpoint passes an object literal.
- `Response.FirstOf`: a non-array `errors` value reads its `"0"` property. The built-in properties of strings and arrays other than index 0 are not modelled.
- `Response.Message`: `String(x)` of an object is given as `[object Object]`, and of `undefined` as `undefined`. Nothing else about `toString` is modelled.

## Findings

| source | as written | input that shows it | evidently intended | confidence | as-written member | corrected member |
|---|---|---|---|---|---|---|
| index.js:101-102 | `body.errors[0]` is read for every non-2xx response with a body, so the callback throws when the body has no `errors` list | status 502 with the body `"Bad Gateway"` (an HTML or text error page from a proxy) | reject with an API error, as `errors[0] \|\| {}` suggests was meant for a missing first error | not executed | `Response.ErrorPageThrows` (on `Response.ClassifyAsWritten`) | `Response.Classify` |
