/**
 * The chat view's own state and handlers: the video-call session
 * (`activeVideoCall` and `token`), the message input (`inputData`), the
 * token-extracting `request` helper, and the handlers of the video and
 * send buttons.
 */
module Chat {
  import opened Wrappers
  import opened Fetch

  /** The room the video button asks the server to open. */
  const RoomId := "0b3a56ce-a7dc-4cff-9588-697db5ff6fe4"

  /** `json.token` on a decoded body: a TypeError on `null`, the property when present, `undefined` otherwise. */
  function TokenOf(json: Value): (o: Outcome)
    ensures o.Rejected? <==> json.Null? || json.Undefined?
    ensures json.Obj? && "token" in json.fields ==> o == Resolved(json.fields["token"])
    ensures o.Resolved? && !(json.Obj? && "token" in json.fields) ==> o.value == Undefined
  {
    match json
    case Null => Rejected(TypeError)
    case Undefined => Rejected(TypeError)
    case Obj(fields) => Resolved(if "token" in fields then fields["token"] else Undefined)
    case _ => Resolved(Undefined)
  }

  /**
   * How the chat `request` settles: it resolves with the `token` field of
   * whatever body was decoded and never looks at the status.
   */
  function ExtractToken(r: TransportResult): (o: Outcome)
    ensures o.Resolved? ==> r.Response?
    ensures r.Response? && r.json.Obj? && "token" in r.json.fields ==> o == Resolved(r.json.fields["token"])
    ensures r.Response? && !r.json.Null? && !r.json.Undefined? ==> o.Resolved?
    ensures r.Response? ==> o == TokenOf(r.json)
    ensures r.Response? && r.json.Null? ==> o == Rejected(TypeError)
    ensures r.Response? && r.json.Obj? && "token" !in r.json.fields ==> o == Resolved(Undefined)
    ensures r.NetworkError? ==> o == Rejected(FetchFailed)
    ensures r.NotJson? ==> o == Rejected(SyntaxError)
  {
    match r
    case NetworkError => Rejected(FetchFailed)
    case NotJson => Rejected(SyntaxError)
    case Response(_, json) => TokenOf(json)
  }

  /** Any two responses with the same body settle alike, whatever their status codes. */
  lemma StatusIgnored(json: Value, s1: int, s2: int)
    ensures ExtractToken(Response(s1, json)) == ExtractToken(Response(s2, json))
  {
  }

  /** The observable video-call session: whether the call modal is shown, and with which token. */
  datatype VideoSession = VideoSession(active: bool, token: Value)

  /** `startVideoCall(t)`. */
  function Start(s: VideoSession, t: Value): VideoSession
  {
    VideoSession(true, t)
  }

  /** `finishVideoCall()`. */
  function Finish(s: VideoSession): VideoSession
  {
    VideoSession(false, Null)
  }

  /** The video button: start the call with the token if the request resolved, otherwise change nothing. */
  function VideoClick(s: VideoSession, o: Outcome): VideoSession
  {
    if o.Resolved? then Start(s, o.value) else s
  }

  /** Finishing ends the call and drops the token from any state, and finishing again changes nothing. */
  lemma FinishIdempotent(s: VideoSession)
    ensures Finish(s) == VideoSession(false, Null)
    ensures Finish(Finish(s)) == Finish(s)
  {
  }

  /** A resolved request starts the call with the resolved token; a rejected one leaves the session as it was. */
  lemma VideoClickSettles(s: VideoSession, o: Outcome)
    ensures o.Resolved? ==> VideoClick(s, o) == VideoSession(true, o.value)
    ensures o.Rejected? ==> VideoClick(s, o) == s
  {
  }

  /** Starting with each token in turn, each start followed by a finish. */
  function Cycles(s: VideoSession, tokens: seq<Value>): VideoSession
    decreases tokens
  {
    if tokens == [] then s else Cycles(Finish(Start(s, tokens[0])), tokens[1..])
  }

  /** Any positive number of start/finish pairs ends inactive with a null token. */
  lemma {:induction false} CyclesEndIdle(s: VideoSession, tokens: seq<Value>)
    requires tokens != []
    ensures Cycles(s, tokens) == VideoSession(false, Null)
    decreases tokens
  {
    if |tokens| > 1 {
      CyclesEndIdle(Finish(Start(s, tokens[0])), tokens[1..]);
    }
  }

  /** The send button: the text handed to `onClick`, if any; the input is non-empty exactly when it is handed over. */
  function SendClick(input: string): (delivered: Option<string>)
    ensures delivered.Some? <==> input != ""
    ensures delivered.Some? ==> delivered.value == input
  {
    if input != "" then Some(input) else None
  }

  /** The state of one mounted chat view. */
  class ChatContainer {
    var activeVideoCall: bool
    var inputData: string
    var token: Value

    /** The session part of the state. */
    function Session(): VideoSession
      reads this
    {
      VideoSession(activeVideoCall, token)
    }

    /** `useState(false)`, `useState("")`, `useState("")`. */
    constructor ()
      ensures !activeVideoCall && inputData == "" && token == Str("")
    {
      activeVideoCall := false;
      inputData := "";
      token := Str("");
    }

    method StartVideoCall(t: Value)
      modifies this
      ensures Session() == Start(old(Session()), t)
      ensures activeVideoCall && token == t
      ensures inputData == old(inputData)
    {
      token := t;
      activeVideoCall := true;
    }

    method FinishVideoCall()
      modifies this
      ensures Session() == Finish(old(Session()))
      ensures !activeVideoCall && token == Null
      ensures inputData == old(inputData)
    {
      token := Null;
      activeVideoCall := false;
    }

    /**
     * `request(options)`: the same headers and merge as the visits helper,
     * settled by extracting `token`. A caller-supplied `headers` replaces
     * the default headers, the bearer header included.
     */
    method Request(stored: Option<string>, options: Options, network: TransportResult)
      returns (sent: Options, outcome: Outcome)
      ensures sent == Assign(Defaults(stored), options)
      ensures forall k :: k in options ==> sent[k] == options[k]
      ensures "headers" !in options ==> sent["headers"] == HeaderSet(DefaultHeaders(stored))
      ensures "headers" !in options && Truthy(stored) ==> Authorized(sent, stored.value)
      ensures outcome == ExtractToken(network)
    {
      var headers := [ContentType];
      if Truthy(stored) {
        headers := headers + [Bearer(stored.value)];
      }
      assert headers == DefaultHeaders(stored);
      var defaults := map["headers" := HeaderSet(headers)];
      sent := Assign(defaults, options);
      outcome := ExtractToken(network);
    }

    /** The video button: POST the fixed room id and start the call with the token that comes back. */
    method OnVideoClick(stored: Option<string>, base: string, network: TransportResult)
      returns (sent: Options)
      modifies this
      ensures sent.Keys == {"url", "method", "body", "headers"}
      ensures sent["url"] == Text(base + "/api/video/room") && sent["method"] == Text("POST")
      ensures sent["body"] == JsonText(Obj(map["roomId" := Str(RoomId)]))
      ensures sent["headers"] == HeaderSet(DefaultHeaders(stored))
      ensures Session() == VideoClick(old(Session()), ExtractToken(network))
      ensures inputData == old(inputData)
    {
      var outcome;
      sent, outcome := Request(stored, map[
        "url" := Text(base + "/api/video/room"),
        "method" := Text("POST"),
        "body" := JsonText(Obj(map["roomId" := Str(RoomId)]))], network);
      if outcome.Resolved? {
        StartVideoCall(outcome.value);
      }
    }

    /** The input field's `onChange`. */
    method OnInputChange(value: string)
      modifies this
      ensures inputData == value
      ensures Session() == old(Session())
    {
      inputData := value;
    }

    /** The send button: hand a non-empty input to `onClick` (returned as `delivered`) and clear the input. */
    method OnSendClick() returns (delivered: Option<string>)
      modifies this
      ensures delivered == SendClick(old(inputData))
      ensures inputData == ""
      ensures Session() == old(Session())
    {
      delivered := if inputData != "" then Some(inputData) else None;
      inputData := "";
    }
  }
}
