/**
 * internal/handler/player.go: the HTTP handlers for players. The decisions
 * (body validation, the `username` query switch, id parsing and the mapping
 * of errors to 404 or 500) are pure functions from what the request and the
 * service yield to the `Response`; the `PlayerHandler` methods run them around
 * the calls to the player service.
 */
module Handler {
  import opened Optional
  import opened Records
  import opened Decimal
  import opened Errors
  import opened Api
  import opened Store
  import opened PlayerRepository
  import PlayerService

  /** The outcome of JSON-decoding a request body; decoding itself is not modelled. */
  datatype Decoded<T> = Decoded(value: T) | Malformed

  const DecodeErrorMessage := "Error decoding request body into CreatePlayerParams struct"
  const EmptyFieldsMessage := "Username and/or class cannot be empty"
  /** The Content-Type GetAllPlayers sets before a successful reply, backquote included. */
  const ListContentType := "application/`json"

  /** Whether the service is called, and with which id, or the reply sent without calling it. */
  datatype Route = CallService(id: int) | Reply(response: Response)

  /** The checks CreatePlayer makes on the body; `None` lets the request reach the service. */
  function CreatePlayerPrecheck(body: Decoded<CreatePlayerParams>): (r: Option<Response>)
    ensures r.None? <==> body.Decoded? && body.value.username != "" && body.value.playerClass != ""
    ensures body.Malformed? ==> r == Some(WriteJSONError(StatusBadRequest, DecodeErrorMessage))
    ensures body.Decoded? && r.Some? ==> r == Some(WriteJSONError(StatusBadRequest, EmptyFieldsMessage))
  {
    if body.Malformed? then Some(WriteJSONError(StatusBadRequest, DecodeErrorMessage))
    else if body.value.username == "" || body.value.playerClass == "" then
      Some(WriteJSONError(StatusBadRequest, EmptyFieldsMessage))
    else None
  }

  /** Every error of the create path, the duplicate username included, is a 500 with the error's text. */
  function CreatePlayerReply(created: Result<Player>): (r: Response)
    ensures r.status == StatusCreated <==> created.Ok?
    ensures created.Ok? ==> r.body == PlayerJson(created.value) && r.contentType == JsonContentType
    ensures created.Err? ==> r == WriteJSONError(StatusInternalServerError, Message(created.error))
  {
    if created.Err? then WriteJSONError(StatusInternalServerError, Message(created.error))
    else Response(StatusCreated, JsonContentType, PlayerJson(created.value))
  }

  /** `errors.As(err, &notFoundErr)`: 404 with the NotFoundErr's own text, otherwise 500 with the whole error's text. */
  function ErrorReply(e: Error): (r: Response)
    ensures EnvelopeAgrees(r)
    ensures r.status == StatusNotFound <==> AsNotFound(e).Some?
    ensures AsNotFound(e).Some? ==> r.body.ErrorJson? && r.body.error.message == Message(NotFound(AsNotFound(e).value))
    ensures AsNotFound(e).None? ==> r == WriteJSONError(StatusInternalServerError, Message(e))
  {
    match AsNotFound(e)
    case Some(id) => WriteJSONError(StatusNotFound, Message(NotFound(id)))
    case None => WriteJSONError(StatusInternalServerError, Message(e))
  }

  /** A single-player lookup: 200 with the player, or the error's reply. */
  function LookupReply(found: Result<Player>, contentType: string): (r: Response)
    ensures EnvelopeAgrees(r)
    ensures r.status == StatusOK <==> found.Ok?
    ensures found.Ok? ==> r == Response(StatusOK, contentType, PlayerJson(found.value))
    ensures found.Err? ==> r == ErrorReply(found.error)
  {
    if found.Ok? then Response(StatusOK, contentType, PlayerJson(found.value)) else ErrorReply(found.error)
  }

  /** The list branch of GetAllPlayers: any error is a 500. */
  function ListReply(listed: Result<seq<Player>>): (r: Response)
    ensures EnvelopeAgrees(r)
    ensures r.status == StatusOK <==> listed.Ok?
    ensures listed.Ok? ==> r == Response(StatusOK, ListContentType, PlayersJson(listed.value))
    ensures listed.Err? ==> r == WriteJSONError(StatusInternalServerError, Message(listed.error))
  {
    if listed.Ok? then Response(StatusOK, ListContentType, PlayersJson(listed.value))
    else WriteJSONError(StatusInternalServerError, Message(listed.error))
  }

  /**
   * The path id of GetPlayerByID: text `strconv.Atoi` refuses is answered
   * with a 500 naming it; a parsed value reaches the service as `int32(id)`.
   */
  function RouteById(pathId: string): (r: Route)
    ensures r.Reply? <==> Atoi(pathId).None?
    ensures r.Reply? ==> r.response == WriteJSONError(StatusInternalServerError, IDParsingErrorMessage(pathId))
    ensures r.CallService? ==> r.id == Int32Of(Atoi(pathId).value) && MinInt32 <= r.id <= MaxInt32
  {
    match Atoi(pathId)
    case Some(n) => CallService(Int32Of(n))
    case None => Reply(WriteJSONError(StatusInternalServerError, IDParsingErrorMessage(pathId)))
  }

  /** A path id that is the decimal text of a 32-bit id reaches the service as that id. */
  lemma RouteByIdOfDecimal(id: int)
    requires MinInt32 <= id <= MaxInt32
    ensures RouteById(IntToDecimal(id)) == CallService(id)
  {
    AtoiOfDecimal(id);
  }

  /** A 64-bit path id beyond the 32-bit range is not refused: the service looks up its truncation. */
  lemma WideIdReachesServiceTruncated(id: int)
    requires MinInt64 <= id <= MaxInt64
    ensures RouteById(IntToDecimal(id)) == CallService(Int32Of(id))
  {
    AtoiOfDecimal(id);
  }

  /** A path id beyond 64 bits is answered with 500 and never reaches the service. */
  lemma OutOfRangeIdIsRefused(id: int)
    requires id < MinInt64 || MaxInt64 < id
    ensures RouteById(IntToDecimal(id)) == Reply(WriteJSONError(StatusInternalServerError, IDParsingErrorMessage(IntToDecimal(id))))
  {
    AtoiRefusesOutOfRange(id);
  }

  /** A path id with a character that is neither a digit nor a leading sign never reaches the service. */
  lemma NonNumericIdIsRefused(pathId: string, k: nat)
    requires k < |pathId| && !IsDigit(pathId[k])
    requires k > 0 || (pathId[0] != '+' && pathId[0] != '-')
    ensures RouteById(pathId) == Reply(WriteJSONError(StatusInternalServerError, IDParsingErrorMessage(pathId)))
  {
    AtoiRejectsNonDigit(pathId, k);
  }

  /** Whatever the store reports, wrapped however deep, is answered with 500 and never 404. */
  lemma {:induction false} StoreErrorIsServerError(e: Error)
    requires FromStore(e)
    ensures ErrorReply(e) == WriteJSONError(StatusInternalServerError, Message(e))
  {
  }

  /** Were a NotFoundErr ever wrapped and returned, errors.As would find it: 404 naming the id. */
  lemma NotFoundIsFoundThroughWrapping(c: Context, id: int)
    requires MinInt64 <= id <= MaxInt64
    ensures var r := ErrorReply(Wrapped(c, NotFound(id)));
      && r.status == StatusNotFound
      && r.body.error.message == Message(NotFound(id))
      && Atoi(r.body.error.message[|NotFoundPrefix|..|r.body.error.message| - |NotFoundSuffix|]) == Some(id)
  {
    assert AsNotFound(Wrapped(c, NotFound(id))) == Some(id);
    NotFoundMessageNamesId(id);
  }

  class PlayerHandler {
    const service: PlayerService.Service

    /** NewPlayerHandler. */
    constructor (service: PlayerService.Service)
      ensures this.service == service
    {
      this.service := service;
    }

    /** POST /player. */
    method CreatePlayer(body: Decoded<CreatePlayerParams>, now: Timestamp, lookupFault: LookupFault, fault: WriteFault)
      returns (r: Response)
      requires service.repo.db.Valid()
      modifies service.repo.db`players, service.repo.db`nextPlayerId
      ensures service.repo.db.Valid()
      ensures EnvelopeAgrees(r)
      ensures CreatePlayerPrecheck(body).Some? ==>
        && r == CreatePlayerPrecheck(body).value
        && service.repo.db.players == old(service.repo.db.players)
        && service.repo.db.nextPlayerId == old(service.repo.db.nextPlayerId)
      ensures CreatePlayerPrecheck(body).None? ==>
        var taken := lookupFault.LookupOk? && HasUsername(old(service.repo.db.players), body.value.username);
        && (taken ==>
              && r == WriteJSONError(StatusInternalServerError, Message(UsernameInUse))
              && service.repo.db.players == old(service.repo.db.players))
        && (!taken && fault.WriteOk? ==>
              && r.status == StatusCreated && r.contentType == JsonContentType && r.body.PlayerJson?
              && r.body.player.username == body.value.username
              && r.body.player.playerClass == body.value.playerClass
              && r.body.player.level == 1 && r.body.player.gold == 0
              && service.repo.db.players == old(service.repo.db.players) + [r.body.player])
        && (!taken && !fault.WriteOk? ==>
              && r == WriteJSONError(StatusInternalServerError,
                                     Message(Wrapped(CreatingPlayer, TxError(fault, ScanningPlayerRow))))
              && service.repo.db.players == old(service.repo.db.players))
    {
      var refused := CreatePlayerPrecheck(body);
      if refused.Some? {
        return refused.value;
      }
      var created := service.CreatePlayer(body.value.username, body.value.playerClass, now, lookupFault, fault);
      r := CreatePlayerReply(created);
    }

    /** GET /player, optionally `?username=`: a non-empty username switches to a single lookup. */
    method GetAllPlayers(username: string, lookupFault: LookupFault, listFault: ReadFault) returns (r: Response)
      ensures EnvelopeAgrees(r)
      ensures r.status == StatusOK || r.status == StatusInternalServerError
      ensures username == "" ==>
        r == ListReply(ScanAll(service.repo.db.players, listFault, QueryingAllPlayers, ScanningPlayerRows, false))
      ensures username != "" ==>
        (r.status == StatusOK <==> lookupFault.LookupOk? && HasUsername(service.repo.db.players, username))
      ensures username != "" && r.status == StatusOK ==>
        && r.contentType == ListContentType && r.body.PlayerJson?
        && r.body.player in service.repo.db.players && r.body.player.username == username
      ensures username != "" && r.status != StatusOK ==>
        r == WriteJSONError(StatusInternalServerError,
               Message(Wrapped(GettingPlayerWithUsername(username),
                 Wrapped(ScanningPlayerRow, if lookupFault.LookupOk? then NoRows else Driver(lookupFault.text)))))
    {
      if username != "" {
        var found := service.GetPlayerByUsername(username, lookupFault);
        r := LookupReply(found, ListContentType);
      } else {
        var listed := service.GetAllPlayers(listFault);
        r := ListReply(listed);
      }
    }

    /** GET /player/{id}. */
    method GetPlayerByID(pathId: string, fault: LookupFault) returns (r: Response)
      ensures EnvelopeAgrees(r)
      ensures r.status == StatusOK || r.status == StatusInternalServerError
      ensures RouteById(pathId).Reply? ==> r == RouteById(pathId).response
      ensures RouteById(pathId).CallService? ==>
        var id := RouteById(pathId).id;
        && (r.status == StatusOK <==> fault.LookupOk? && HasId(service.repo.db.players, id))
        && (r.status == StatusOK ==>
              && r.contentType == JsonContentType && r.body.PlayerJson?
              && r.body.player in service.repo.db.players && r.body.player.id == id)
        && (r.status != StatusOK ==>
              r == WriteJSONError(StatusInternalServerError,
                     Message(Wrapped(GettingPlayerWithId(id),
                       Wrapped(ScanningPlayerRow, if fault.LookupOk? then NoRows else Driver(fault.text))))))
    {
      var route := RouteById(pathId);
      if route.Reply? {
        return route.response;
      }
      var found := service.GetPlayerByID(route.id, fault);
      r := LookupReply(found, JsonContentType);
    }
  }
}
