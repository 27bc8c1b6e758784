# Telemedicine demo: request helpers, video-call session and chat controller

A Dafny model of the decision logic inside a telemedicine demo (a React
frontend and a Spring backend):

- **Visits client** (`VisitsRequest`): the authenticated `request` helper —
  a `Content-Type: application/json` header, a bearer `Authorization`
  header (section 2.1 of RFC 6750) only when the stored access token is
  truthy, the caller's options shallow-merged over `{ headers }` with
  `Object.assign` — and how the call settles: an ok response (status
  200–299) resolves with the decoded body, any other status rejects with
  that same body. The three operations `getDoctorsList`,
  `getDrAppointments` and `createAppointment` reject with
  `"No access token set."` without calling `fetch` when no token is stored,
  and otherwise issue a fixed URL, method and body.
- **Chat view** (`Chat`): the second copy of the request helper, which
  resolves with the `token` field of the decoded body whatever the status;
  the `ChatContainer` class with its `activeVideoCall`, `token` and
  `inputData` state, `startVideoCall`, `finishVideoCall`, the video-button
  handler (start the call only when the room request resolves), the input's
  `onChange` and the send-button handler (hand a non-empty input to
  `onClick`, always clear the input).
- **Login screen** (`Login`): `calcPath2Board` (`/doctor/` for a user type
  exactly `"Doctor"`, `/user/` otherwise, then the id and `/board`) and the
  label of each demo user.
- **Chat REST controller** (`ChatRest`): adding the principal to the
  participants of a new room, forcing author and source of a sent message,
  the status of every endpoint (202 for a sent message, 200 otherwise) and
  the session's last-fetch attribute (read it or fall back to the clock;
  overwrite it, in `pollMessages` even when the service throws).

`Wrappers` holds `Option` and `Result`; `Fetch` holds what both request
helpers share from the browser platform (decoded JSON values, `Headers`,
options objects and `Object.assign`, token truthiness, the result of one
`fetch` + `response.json()`, promise outcomes).

Modelling choices:

- The stored token (`localStorage.getItem(ACCESS_TOKEN)`) is an
  `Option<string>` parameter; `None` is `null`. It is truthy when present
  and non-empty.
- `API_BASE_URL` (from a constants file that is not part of this model) is
  the parameter `base`.
- The network is a parameter: what `fetch` and `response.json()` gave back
  (`NetworkError`, `NotJson`, or a status with the decoded body). Each
  request method also returns the options object it handed to `fetch`
  (`sent`); an operation that never calls `fetch` returns `None` there.
- `JSON.stringify(v)` is kept symbolic as the setting `JsonText(v)`.
- Promise rejections are the `Rejection` datatype: fetch's network error,
  the JSON `SyntaxError`, the `TypeError` of reading `token` from `null`, or
  a rejected value.
- The Java services are passed to each endpoint as functions returning a
  `Result` (an exception is a `Failure`); the principal is its id; clock
  readings are parameters. `pollMessages` reads the clock twice (the
  fallback in `getLastFetchAttribute`, the write in `finally`) and gets two
  parameters for it.

Behaviour of the code the model keeps:

- A caller's `headers` option replaces the whole default header set, the
  bearer header included (`Object.assign` is shallow).
- The view starts inactive with token `""`, and a response without a
  `token` field starts a call with token `undefined`.
- `finishVideoCall` clears the token and the flag in two state updates;
  the model applies both in one step, so it assumes the two updates are
  batched into one render.
- `getDrAppointments` does not check that the doctor id is non-empty, and
  no operation validates the appointment data.
- A non-ok response whose body is not JSON rejects with the decoding
  error, because the body is decoded before the status is looked at.

## Model

| member | source | states |
|---|---|---|
| Fetch.Truthy | frontend/src/services/VisitsRequest.js:8 | the stored token counts as set unless it is missing (null) or the empty string |
| Fetch.DefaultHeaders | frontend/src/services/VisitsRequest.js:4-13 | Content-Type is application/json; an Authorization header is present iff the stored token is truthy, and then equals "Bearer " + token; nothing else is in the set |
| Fetch.Assign | frontend/src/services/VisitsRequest.js:15-16 | the merged options have the keys of both objects; every caller key keeps the caller's value; every other default key keeps the default |
| VisitsRequest.Settle | frontend/src/services/VisitsRequest.js:18-25 | resolves iff the response is ok, with the decoded body; a non-ok response rejects with exactly that body; a thrown value always is the decoded body; a network failure rejects with fetch's error and a non-JSON body with the decoding error |
| VisitsRequest.SettleKeepsBody | frontend/src/services/VisitsRequest.js:18-25 | two decoded responses settle alike only if their bodies are equal and both or neither are ok: the whole body reaches the caller, only the exact status is lost |
| VisitsRequest.Request | frontend/src/services/VisitsRequest.js:3-26 | sent options are the shallow merge of the default headers and the caller's options; without caller headers they carry Content-Type and, when the token is truthy, the bearer header; the outcome is the status-checked settlement |
| VisitsRequest.GetDoctorsList | frontend/src/services/VisitsRequest.js:28-37 | without a truthy token: rejects with "No access token set." and fetch is not called; otherwise GET base + "/api/user/doctors", no body, with the bearer header |
| VisitsRequest.GetDrAppointments | frontend/src/services/VisitsRequest.js:39-48 | without a truthy token: rejects with "No access token set." and fetch is not called; otherwise GET base + "/api/availability/" + id with the bearer header |
| VisitsRequest.CreateAppointment | frontend/src/services/VisitsRequest.js:50-63 | without a truthy token: rejects with "No access token set." and fetch is not called; otherwise POST base + "/api/appointment" with the JSON text of the data as body and the bearer header |
| Chat.TokenOf | frontend/src/components/Chat/ChatContainer.js:84 | reading token rejects exactly on null; gives the token property when present and undefined otherwise |
| Chat.ExtractToken | frontend/src/components/Chat/ChatContainer.js:83-84 | resolves only on a decoded response, with its token field, for every status; a null body rejects with a TypeError, a body without token resolves with undefined; a network failure rejects with fetch's error and a non-JSON body with the decoding error |
| Chat.StatusIgnored | frontend/src/components/Chat/ChatContainer.js:83-84 | two responses with the same body settle the same whatever their statuses |
| Chat.ChatContainer.Request | frontend/src/components/Chat/ChatContainer.js:71-85 | same header construction and shallow merge as the visits helper (caller headers replace the defaults, bearer included); the outcome is the token extraction |
| Chat.ChatContainer.constructor | frontend/src/components/Chat/ChatContainer.js:56-58 | the view starts with no active call, empty input and token "" |
| Chat.ChatContainer.StartVideoCall | frontend/src/components/Chat/ChatContainer.js:61-64 | afterwards token = t and the call is active; the input is untouched |
| Chat.ChatContainer.FinishVideoCall | frontend/src/components/Chat/ChatContainer.js:66-69 | from any state, afterwards token = null and the call is inactive; the input is untouched |
| Chat.FinishIdempotent | frontend/src/components/Chat/ChatContainer.js:66-69 | finishing gives the idle null-token state from any state, and finishing twice equals finishing once |
| Chat.CyclesEndIdle | frontend/src/components/Chat/ChatContainer.js:61-69 | any positive number of start-then-finish pairs ends inactive with a null token |
| Chat.VideoClickSettles | frontend/src/components/Chat/ChatContainer.js:105-111 | a resolved room request starts the call with the resolved token; a rejected one leaves the session unchanged |
| Chat.ChatContainer.OnVideoClick | frontend/src/components/Chat/ChatContainer.js:105-111 | POSTs base + "/api/video/room" with the fixed room id as JSON body and the default headers; the session becomes the video-click transition of the token extraction |
| Chat.ChatContainer.OnInputChange | frontend/src/components/Chat/ChatContainer.js:158 | the input becomes the typed value; the session is untouched |
| Chat.SendClick | frontend/src/components/Chat/ChatContainer.js:163 | onClick receives the input iff it is non-empty, and then exactly the input |
| Chat.ChatContainer.OnSendClick | frontend/src/components/Chat/ChatContainer.js:162-165 | delivers the input to onClick only when non-empty; the input is "" afterwards in both cases; the session is untouched |
| Login.CalcPath2Board | frontend/src/screens/Login/Login.js:144-149 | the path starts with "/doctor/" iff the user type is exactly "Doctor", with "/user/" otherwise; it ends in "/board" with the id immediately before it |
| Login.ParseCalcPath | frontend/src/screens/Login/Login.js:145-146 | reading a computed path back gives exactly the user's board and id |
| Login.CalcPathInjective | frontend/src/screens/Login/Login.js:145-146 | equal paths imply equal ids and the same board |
| Login.Label | frontend/src/screens/Login/Login.js:128 | the label is the user type, one space, then the name |
| ChatRest.StatusOf | src/main/java/com/itechartgroup/telemed/chat/web/ChatRestController.java:44-94 | an endpoint answers 202 iff it is message sending, 200 otherwise |
| ChatRest.Respond | src/main/java/com/itechartgroup/telemed/chat/web/ChatRestController.java:49 | a returned service result becomes a response with that body and the given status; an exception the service throws propagates unchanged |
| ChatRest.GetLastFetchAttribute | src/main/java/com/itechartgroup/telemed/chat/web/ChatRestController.java:96-99 | the stored last-fetch value when there is one, otherwise the current time |
| ChatRest.SetLastFetchAttribute | src/main/java/com/itechartgroup/telemed/chat/web/ChatRestController.java:101-103 | the attribute holds the current time afterwards |
| ChatRest.LoadRooms | src/main/java/com/itechartgroup/telemed/chat/web/ChatRestController.java:44-50 | the attribute is overwritten with the current time, even when the service then throws; the service's rooms for the principal are answered with 200 |
| ChatRest.WithPrincipal | src/main/java/com/itechartgroup/telemed/chat/web/ChatRestController.java:55 | the set holds exactly the requested ids and the principal; an id already present leaves the set unchanged |
| ChatRest.ParticipantSet.Add | src/main/java/com/itechartgroup/telemed/chat/web/ChatRestController.java:55 | the id is added in place; the result says whether it was new |
| ChatRest.CreateRoom | src/main/java/com/itechartgroup/telemed/chat/web/ChatRestController.java:52-57 | the participant set is changed in place to the request's ids plus the principal, and that set is handed to the room service; answered with 200 |
| ChatRest.AsUser | src/main/java/com/itechartgroup/telemed/chat/web/ChatRestController.java:63-65 | author is the principal and source is USER; every other field is kept |
| ChatRest.ClientAuthorIgnored | src/main/java/com/itechartgroup/telemed/chat/web/ChatRestController.java:63-65 | what the client put in author and source makes no difference to the forwarded message |
| ChatRest.SendMessage | src/main/java/com/itechartgroup/telemed/chat/web/ChatRestController.java:59-68 | the DTO is overwritten in place to author = principal and source = USER before the service sees it; answered with 202 |
| ChatRest.LoadMessages | src/main/java/com/itechartgroup/telemed/chat/web/ChatRestController.java:70-76 | the attribute is overwritten with the current time before the service runs; the room's messages are answered with 200 |
| ChatRest.PollMessages | src/main/java/com/itechartgroup/telemed/chat/web/ChatRestController.java:78-88 | the service gets the last fetch read before the overwrite (or the clock when unset); afterwards the attribute holds the later clock reading whether the service returned or threw; 200 |
| ChatRest.MarkAsRead | src/main/java/com/itechartgroup/telemed/chat/web/ChatRestController.java:90-94 | answers the service's result for (principal, room) with 200, and propagates its exception |

## Left out

- Rendering, styling, Material-UI components, `VideoCallModal`, routing links and the icon choice: presentation.
- `fetch`, `Headers` and `response.json()` internals: the network and its decoding are an input value; header names are compared exactly, not case-insensitively.
- `JSON.stringify`: the body is the value it encodes, not the encoded text.
- JavaScript numbers are integers here; floating point is not modelled.
- Promises: each call is one sequential outcome; scheduling, ordering of concurrent calls and updates to an unmounted view are not modelled.
- `console.log` in `calcPath2Board` and `createAppointment`: output only.
- The demo account list (`AccountAPI`): a user is a parameter, and its id is already the text concatenation makes of it.
- The room and message services, paging and Spring security: the services are function parameters; the principal is taken to be present (a missing one would be a null-pointer error).
- HTTP session attributes other than the last-fetch time, and a session that is invalidated while in use.
- `System.currentTimeMillis`: clock readings are parameters.
- Chat.TokenOf: property lookup ignores inherited properties of strings and arrays; only `token` is ever read, which none of them has.
