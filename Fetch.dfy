/**
 * The part of the browser platform that the two request helpers rely on:
 * decoded JSON values, a `Headers` list, an options object merged with
 * `Object.assign`, the stored access token, and the outcome of one
 * `fetch` call followed by `response.json()`.
 */
module Fetch {
  import opened Wrappers

  /**
   * A JavaScript value as `JSON.parse` produces it, plus `undefined`
   * (what reading a missing property gives). Numbers are integers here.
   */
  datatype Value =
    | Undefined
    | Null
    | Bool(b: bool)
    | Num(n: int)
    | Str(s: string)
    | Arr(items: seq<Value>)
    | Obj(fields: map<string, Value>)

  /** One entry of a `Headers` object. */
  datatype Header = Header(name: string, value: string)

  /** A `Headers` object: its entries in insertion order (`append` adds at the end). */
  type Headers = seq<Header>

  /** `headers.get(name)` for a header that was added at most once: the first value stored under `name`. */
  function Get(headers: Headers, name: string): (v: Option<string>)
    ensures v.Some? <==> exists i :: 0 <= i < |headers| && headers[i].name == name
    ensures v.Some? ==> Header(name, v.value) in headers
  {
    if headers == [] then None
    else if headers[0].name == name then Some(headers[0].value)
    else Get(headers[1..], name)
  }

  /** The header every request carries. */
  const ContentType := Header("Content-Type", "application/json")

  /** The bearer credential header of section 2.1 of RFC 6750. */
  function Bearer(token: string): Header
  {
    Header("Authorization", "Bearer " + token)
  }

  /**
   * JavaScript truthiness of `localStorage.getItem(ACCESS_TOKEN)`:
   * `null` (None) and the empty string are falsy, every other string is truthy.
   */
  predicate Truthy(stored: Option<string>)
    ensures Truthy(stored) <==> stored !in {None, Some("")}
  {
    stored.Some? && stored.value != ""
  }

  /**
   * The header set both request helpers start from: Content-Type always,
   * and the bearer header exactly when the stored token is truthy.
   */
  function DefaultHeaders(stored: Option<string>): (h: Headers)
    ensures Get(h, "Content-Type") == Some("application/json")
    ensures Get(h, "Authorization").Some? <==> Truthy(stored)
    ensures Truthy(stored) ==> Get(h, "Authorization") == Some("Bearer " + stored.value)
    ensures |h| == if Truthy(stored) then 2 else 1
  {
    if Truthy(stored) then [ContentType, Bearer(stored.value)] else [ContentType]
  }

  /**
   * A property of a request options object. `JsonText(v)` stands for the
   * string `JSON.stringify(v)`; the serialisation itself is not modelled.
   */
  datatype Setting = Text(s: string) | HeaderSet(headers: Headers) | JsonText(encoded: Value)

  /** A request options object: property name to value. */
  type Options = map<string, Setting>

  /**
   * `Object.assign({}, defaults, options)`: a shallow copy in which every
   * property of `options` replaces the property of `defaults` with the same name.
   */
  function Assign(defaults: Options, options: Options): (merged: Options)
    ensures merged.Keys == defaults.Keys + options.Keys
    ensures forall k :: k in options ==> merged[k] == options[k]
    ensures forall k :: k in defaults && k !in options ==> merged[k] == defaults[k]
  {
    defaults + options
  }

  /** The defaults object `{ headers: headers }` built by both helpers. */
  function Defaults(stored: Option<string>): Options
  {
    map["headers" := HeaderSet(DefaultHeaders(stored))]
  }

  /**
   * The options handed to `fetch` carry the bearer header for `token`
   * (and the JSON content type) in their `headers` property.
   */
  predicate Authorized(sent: Options, token: string)
  {
    "headers" in sent && sent["headers"].HeaderSet?
    && Get(sent["headers"].headers, "Content-Type") == Some("application/json")
    && Get(sent["headers"].headers, "Authorization") == Some("Bearer " + token)
  }

  /**
   * What `fetch` followed by `response.json()` gave back: the network
   * failed, the body was not JSON, or a status with the decoded body.
   */
  datatype TransportResult = NetworkError | NotJson | Response(status: int, json: Value)

  /** `response.ok`: the status lies in 200..299. */
  predicate Ok(status: int)
  {
    200 <= status <= 299
  }

  /**
   * Why a promise was rejected: fetch's network TypeError, the SyntaxError
   * of `response.json()`, a TypeError thrown by reading a property of `null`,
   * or a value passed to `Promise.reject`.
   */
  datatype Rejection = FetchFailed | SyntaxError | TypeError | Thrown(value: Value)

  /** How a promise settled. */
  datatype Outcome = Resolved(value: Value) | Rejected(reason: Rejection)
}
