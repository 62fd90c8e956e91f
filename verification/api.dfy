/**
 * The HTTP response a handler produces, and internal/api/errors.go: the
 * JSON error envelope written by `WriteJSONError` and the message of
 * `IDParsingError`.
 */
module Api {
  import opened Records

  const StatusOK := 200
  const StatusCreated := 201
  const StatusBadRequest := 400
  const StatusNotFound := 404
  const StatusInternalServerError := 500

  const JsonContentType := "application/json"

  /** The error envelope `{status, message}`. */
  datatype APIError = APIError(status: int, message: string)

  /** What a handler encodes into the body: JSON encoding itself is not modelled. */
  datatype Body =
    | PlayerJson(player: Player)
    | PlayersJson(players: seq<Player>)
    | ErrorJson(error: APIError)

  /** The status, the Content-Type header and the body a handler leaves in the ResponseWriter. */
  datatype Response = Response(status: int, contentType: string, body: Body)

  /**
   * `WriteJSONError(w, status, msg)`: sets Content-Type, writes the status,
   * then encodes an envelope carrying the same status and the message.
   */
  function WriteJSONError(status: int, msg: string): (r: Response)
    ensures r.status == status && r.contentType == JsonContentType
    ensures r.body.ErrorJson? && r.body.error.status == r.status && r.body.error.message == msg
  {
    Response(status, JsonContentType, ErrorJson(APIError(status, msg)))
  }

  /** An error body always reports the status the response was sent with. */
  predicate EnvelopeAgrees(r: Response) {
    r.body.ErrorJson? ==> r.body.error.status == r.status
  }

  const IDParsingPrefix := "parsing id: invalid value '"

  /** `NewIDParsingError(value).Error()`. */
  function IDParsingErrorMessage(value: string): (m: string)
    ensures |m| == |IDParsingPrefix| + |value| + 1
    ensures m[..|IDParsingPrefix|] == IDParsingPrefix
    ensures m[|IDParsingPrefix|..|m| - 1] == value
    ensures m[|m| - 1] == '\''
  {
    IDParsingPrefix + value + "'"
  }
}
