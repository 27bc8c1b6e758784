/**
 * The chat REST controller's own logic: which participants and which
 * message fields it hands to the chat services, the status of each
 * response, and the session's last-fetch bookkeeping. The room and message
 * services are passed to each endpoint as functions; the clock is passed
 * in as the values it reads.
 */
module ChatRest {
  import opened Wrappers

  /** A `java.util.UUID`, as its 128-bit value. */
  newtype Uuid = x: int | 0 <= x < 0x1_0000_0000_0000_0000_0000_0000_0000_0000

  /** What a service throws, by its message. */
  type Exception = string

  datatype HttpStatus = OK | ACCEPTED {
    function Code(): int
    {
      if OK? then 200 else 202
    }
  }

  /** A `ResponseEntity`: the service's result with a status. */
  datatype ResponseEntity<T> = ResponseEntity(body: T, status: HttpStatus)

  /** The controller's endpoints, by route under /api/chat. */
  datatype Endpoint =
    | GetRoom         // loadRooms
    | PostRoom        // createRoom
    | PostMessage     // sendMessage
    | GetRoomById     // loadMessages
    | GetPoll         // pollMessages
    | PostRoomById    // markAsRead

  /** The status each endpoint answers with: 202 for a sent message, 200 for everything else. */
  function StatusOf(e: Endpoint): (s: HttpStatus)
    ensures s.Code() == 202 <==> e == PostMessage
    ensures s.Code() == 200 <==> e != PostMessage
  {
    if e == PostMessage then ACCEPTED else OK
  }

  /** `new ResponseEntity<>(result, status)`: an exception the service throws propagates unchanged. */
  function Respond<T>(r: Result<T, Exception>, status: HttpStatus): (resp: Result<ResponseEntity<T>, Exception>)
    ensures resp.Success? <==> r.Success?
    ensures resp.Success? ==> resp.value == ResponseEntity(r.value, status)
    ensures resp.Failure? ==> resp.error == r.error
  {
    match r
    case Success(v) => Success(ResponseEntity(v, status))
    case Failure(e) => Failure(e)
  }

  /** The HTTP session; only the last-fetch attribute is modelled (None when unset). */
  class HttpSession {
    var lastFetch: Option<int>

    constructor ()
      ensures lastFetch == None
    {
      lastFetch := None;
    }
  }

  /** `getLastFetchAttribute`: the stored value if there is one, otherwise the current time. */
  function GetLastFetchAttribute(session: HttpSession, now: int): (t: int)
    reads session
    ensures session.lastFetch.Some? ==> t == session.lastFetch.value
    ensures session.lastFetch.None? ==> t == now
  {
    match session.lastFetch
    case Some(v) => v
    case None => now
  }

  /** `setLastFetchAttribute`: overwrite the attribute with the current time. */
  method SetLastFetchAttribute(session: HttpSession, now: int)
    modifies session
    ensures session.lastFetch == Some(now)
  {
    session.lastFetch := Some(now);
  }

  /** GET /room: record the fetch time, then load the principal's rooms. */
  method LoadRooms<P, T>(pageable: P, session: HttpSession, principal: Uuid, now: int,
                         load: (P, Uuid) -> Result<T, Exception>)
    returns (r: Result<ResponseEntity<T>, Exception>)
    modifies session
    ensures session.lastFetch == Some(now)
    ensures r == Respond(load(pageable, principal), StatusOf(GetRoom))
  {
    SetLastFetchAttribute(session, now);
    r := Respond(load(pageable, principal), OK);
  }

  /** The participant set the room service receives: the requested ids plus the principal. */
  function WithPrincipal(participants: set<Uuid>, principal: Uuid): (s: set<Uuid>)
    ensures forall id :: id in s <==> id in participants || id == principal
    ensures principal in participants ==> s == participants
  {
    participants + {principal}
  }

  /** A mutable `Set<UUID>` read from a request body. */
  class ParticipantSet {
    var elements: set<Uuid>

    constructor (ids: set<Uuid>)
      ensures elements == ids
    {
      elements := ids;
    }

    /** `Set.add`: true exactly when the id was not there yet. */
    method Add(id: Uuid) returns (added: bool)
      modifies this
      ensures elements == old(elements) + {id}
      ensures added == (id !in old(elements))
    {
      added := id !in elements;
      elements := elements + {id};
    }
  }

  /** POST /room: add the principal to the participants in place, then create the room. */
  method CreateRoom<T>(participants: ParticipantSet, principal: Uuid,
                       create: set<Uuid> -> Result<T, Exception>)
    returns (r: Result<ResponseEntity<T>, Exception>)
    modifies participants
    ensures participants.elements == WithPrincipal(old(participants.elements), principal)
    ensures r == Respond(create(participants.elements), StatusOf(PostRoom))
  {
    var _ := participants.Add(principal);
    r := Respond(create(participants.elements), OK);
  }

  /** Who a message is from. Only USER matters to the controller; the enum's other constants are kept by name. */
  datatype ChatMessageSource = USER | OtherSource(name: string)

  /**
   * The values of a `ChatMessageDto`. `content` stands for every field
   * other than author and source, which the controller never touches.
   */
  datatype MessageFields = MessageFields(author: Option<Uuid>, source: Option<ChatMessageSource>, content: string)

  /** A message as the client sent it, before and after the controller's two setters. */
  class ChatMessageDto {
    var author: Option<Uuid>
    var source: Option<ChatMessageSource>
    var content: string

    constructor (fields: MessageFields)
      ensures Fields() == fields
    {
      author, source, content := fields.author, fields.source, fields.content;
    }

    function Fields(): MessageFields
      reads this
    {
      MessageFields(author, source, content)
    }
  }

  /** The fields after `setAuthor(principal)` and `setSource(USER)`. */
  function AsUser(f: MessageFields, principal: Uuid): (g: MessageFields)
    ensures g.author == Some(principal) && g.source == Some(USER)
    ensures g.content == f.content
  {
    f.(author := Some(principal), source := Some(USER))
  }

  /** Whatever author and source the client sent, the service sees the same message. */
  lemma ClientAuthorIgnored(f1: MessageFields, f2: MessageFields, principal: Uuid)
    requires f1.content == f2.content
    ensures AsUser(f1, principal) == AsUser(f2, principal)
  {
  }

  /** POST /message: force the author and the source, then send; answers 202. */
  method SendMessage<T>(dto: ChatMessageDto, principal: Uuid,
                        send: MessageFields -> Result<T, Exception>)
    returns (r: Result<ResponseEntity<T>, Exception>)
    modifies dto
    ensures dto.Fields() == AsUser(old(dto.Fields()), principal)
    ensures r == Respond(send(dto.Fields()), StatusOf(PostMessage))
  {
    dto.author := Some(principal);
    dto.source := Some(USER);
    r := Respond(send(dto.Fields()), ACCEPTED);
  }

  /** GET /room/{roomId}: record the fetch time, then load the room's messages. */
  method LoadMessages<P, T>(roomId: Uuid, pageable: P, session: HttpSession, now: int,
                            load: (Uuid, P) -> Result<T, Exception>)
    returns (r: Result<ResponseEntity<T>, Exception>)
    modifies session
    ensures session.lastFetch == Some(now)
    ensures r == Respond(load(roomId, pageable), StatusOf(GetRoomById))
  {
    SetLastFetchAttribute(session, now);
    r := Respond(load(roomId, pageable), OK);
  }

  /**
   * GET /poll: poll with the last fetch time read before the attribute is
   * overwritten (or the clock when unset), and overwrite it afterwards
   * whether or not the service threw. The clock is read twice:
   * `readClock` by the fallback, `writeClock` by the final write.
   */
  method PollMessages<T>(session: HttpSession, principal: Uuid, readClock: int, writeClock: int,
                         poll: (int, Uuid) -> Result<T, Exception>)
    returns (r: Result<ResponseEntity<T>, Exception>)
    modifies session
    ensures r == Respond(poll(old(GetLastFetchAttribute(session, readClock)), principal), StatusOf(GetPoll))
    ensures session.lastFetch == Some(writeClock)
  {
    var lastFetch := GetLastFetchAttribute(session, readClock);
    r := Respond(poll(lastFetch, principal), OK);
    SetLastFetchAttribute(session, writeClock);
  }

  /** POST /room/{roomId}: mark the room as read for the principal. */
  method MarkAsRead<T>(roomId: Uuid, principal: Uuid, mark: (Uuid, Uuid) -> Result<T, Exception>)
    returns (r: Result<ResponseEntity<T>, Exception>)
    ensures r.Success? <==> mark(principal, roomId).Success?
    ensures r.Success? ==> r.value.body == mark(principal, roomId).value && r.value.status.Code() == 200
    ensures r.Failure? ==> r.error == mark(principal, roomId).error
  {
    r := Respond(mark(principal, roomId), OK);
  }
}
