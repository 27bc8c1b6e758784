/**
 * The visits client: an authenticated `request` helper that resolves with
 * the decoded body of an ok response and rejects with it otherwise, and the
 * three operations built on it, each of which first checks that an access
 * token is stored.
 */
module VisitsRequest {
  import opened Wrappers
  import opened Fetch

  /** The rejection value of every operation called without a stored token. */
  const NoAccessToken := "No access token set."

  /**
   * How `request` settles once `fetch` and `response.json()` have run:
   * an ok response resolves with the whole decoded body, any other status
   * rejects with that same body, and failures before a body is decoded
   * reject with their own error.
   */
  function Settle(r: TransportResult): (o: Outcome)
    ensures o.Resolved? <==> r.Response? && Ok(r.status)
    ensures o.Resolved? ==> o.value == r.json
    ensures r.Response? && !Ok(r.status) ==> o == Rejected(Thrown(r.json))
    ensures o.Rejected? && o.reason.Thrown? ==> r.Response? && o.reason.value == r.json
    ensures r.NetworkError? ==> o == Rejected(FetchFailed)
    ensures r.NotJson? ==> o == Rejected(SyntaxError)
  {
    match r
    case NetworkError => Rejected(FetchFailed)
    case NotJson => Rejected(SyntaxError)
    case Response(status, json) => if Ok(status) then Resolved(json) else Rejected(Thrown(json))
  }

  /**
   * The outcome of a decoded response tells the caller everything except the
   * exact status: two responses settle alike only if their bodies are equal
   * and both or neither are ok.
   */
  lemma SettleKeepsBody(s1: int, j1: Value, s2: int, j2: Value)
    requires Settle(Response(s1, j1)) == Settle(Response(s2, j2))
    ensures j1 == j2 && Ok(s1) == Ok(s2)
  {
  }

  /**
   * `request(options)`: build the default headers (appending the bearer
   * header when the token is truthy), merge the caller's options over
   * `{ headers }`, hand the result to `fetch` (returned as `sent`) and
   * settle on what the network gave back.
   */
  method Request(stored: Option<string>, options: Options, network: TransportResult)
    returns (sent: Options, outcome: Outcome)
    ensures sent == Assign(Defaults(stored), options)
    ensures sent.Keys == options.Keys + {"headers"}
    ensures forall k :: k in options ==> sent[k] == options[k]
    ensures "headers" !in options ==> sent["headers"] == HeaderSet(DefaultHeaders(stored))
    ensures "headers" !in options && Truthy(stored) ==> Authorized(sent, stored.value)
    ensures outcome == Settle(network)
  {
    var headers := [ContentType];
    if Truthy(stored) {
      headers := headers + [Bearer(stored.value)];
    }
    assert headers == DefaultHeaders(stored);
    var defaults := map["headers" := HeaderSet(headers)];
    sent := Assign(defaults, options);
    outcome := Settle(network);
  }

  /**
   * The options of a call with the given url, method and optional JSON body,
   * with the default headers merged in: nothing else is sent.
   */
  predicate Issued(sent: Options, url: string, verb: string, body: Option<Value>)
  {
    sent.Keys == {"url", "method", "headers"} + (if body.Some? then {"body"} else {})
    && sent["url"] == Text(url)
    && sent["method"] == Text(verb)
    && (body.Some? ==> sent["body"] == JsonText(body.value))
  }

  /** `getDoctorsList()`: GET `API_BASE_URL + "/api/user/doctors"`, no body, only with a stored token. */
  method GetDoctorsList(stored: Option<string>, base: string, network: TransportResult)
    returns (sent: Option<Options>, outcome: Outcome)
    ensures !Truthy(stored) ==> sent == None && outcome == Rejected(Thrown(Str(NoAccessToken)))
    ensures Truthy(stored) ==> sent.Some? && outcome == Settle(network)
    ensures Truthy(stored) ==> Issued(sent.value, base + "/api/user/doctors", "GET", None)
    ensures Truthy(stored) ==> Authorized(sent.value, stored.value)
  {
    if !Truthy(stored) {
      return None, Rejected(Thrown(Str(NoAccessToken)));
    }
    var options;
    options, outcome := Request(stored, map["url" := Text(base + "/api/user/doctors"), "method" := Text("GET")], network);
    sent := Some(options);
  }

  /** `getDrAppointments(doctorId)`: GET `API_BASE_URL + "/api/availability/" + doctorId`, only with a stored token. */
  method GetDrAppointments(stored: Option<string>, base: string, doctorId: string, network: TransportResult)
    returns (sent: Option<Options>, outcome: Outcome)
    ensures !Truthy(stored) ==> sent == None && outcome == Rejected(Thrown(Str(NoAccessToken)))
    ensures Truthy(stored) ==> sent.Some? && outcome == Settle(network)
    ensures Truthy(stored) ==> Issued(sent.value, base + "/api/availability/" + doctorId, "GET", None)
    ensures Truthy(stored) ==> Authorized(sent.value, stored.value)
  {
    if !Truthy(stored) {
      return None, Rejected(Thrown(Str(NoAccessToken)));
    }
    var options;
    options, outcome := Request(stored, map["url" := Text(base + "/api/availability/" + doctorId), "method" := Text("GET")], network);
    sent := Some(options);
  }

  /** `createAppointment(appointmentData)`: POST `API_BASE_URL + "/api/appointment"` with the JSON text of the data as body. */
  method CreateAppointment(stored: Option<string>, base: string, appointmentData: Value, network: TransportResult)
    returns (sent: Option<Options>, outcome: Outcome)
    ensures !Truthy(stored) ==> sent == None && outcome == Rejected(Thrown(Str(NoAccessToken)))
    ensures Truthy(stored) ==> sent.Some? && outcome == Settle(network)
    ensures Truthy(stored) ==> Issued(sent.value, base + "/api/appointment", "POST", Some(appointmentData))
    ensures Truthy(stored) ==> Authorized(sent.value, stored.value)
  {
    if !Truthy(stored) {
      return None, Rejected(Thrown(Str(NoAccessToken)));
    }
    var options;
    options, outcome := Request(stored, map["url" := Text(base + "/api/appointment"), "method" := Text("POST"), "body" := JsonText(appointmentData)], network);
    sent := Some(options);
  }
}
