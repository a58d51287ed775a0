/** dto/battleship_error.go: the error record the HTTP layer returns to
    clients, its constructors, and ParseError, which recognises the
    sentinel errors of error_codes as well as driver and decoder errors. */
module DtoErrors {
  import opened Errors

  function Record(httpErrorCode: int, errorCode: ErrorCode, errorMessage: string): GoError {
    Dto(DtoBattleError(None, httpErrorCode, errorCode, errorMessage, map[]))
  }

  // The constructors.  Those without a code leave ErrorCode at its zero value.

  function EntityNotFound(message: string, entityName: string, entityValue: string): GoError {
    Dto(DtoBattleError(None, StatusNotFound, 0, message,
                       map["entityName" := entityName, "entityValue" := entityValue]))
  }

  function ValidationError(message: string): GoError { Record(StatusBadRequest, 0, message) }

  function BadRequest0(): GoError { Record(StatusBadRequest, 0, "Bad request") }

  function BadRequest1(message: string): GoError { Record(StatusBadRequest, 0, message) }

  function BadRequest2(message: string, code: ErrorCode): GoError { Record(StatusBadRequest, code, message) }

  function Unauthorized(message: string): GoError { Record(StatusUnauthorized, 0, message) }

  function Forbidden1(message: string): GoError { Record(StatusForbidden, 0, message) }

  function Forbidden2(message: string, code: ErrorCode): GoError { Record(StatusForbidden, code, message) }

  function NotFoundError0(): GoError { Record(StatusNotFound, 0, "Not found") }

  function NotFoundError1(message: string): GoError { Record(StatusNotFound, 0, message) }

  function NotFoundError2(message: string, errorCode: ErrorCode): GoError { Record(StatusNotFound, errorCode, message) }

  function Duplicate0(): GoError { Record(StatusConflict, 0, "duplicate request") }

  function Duplicate1(message: string): GoError { Record(StatusConflict, 0, message) }

  /** Duplicate11 carries a code and no message. */
  function Duplicate11(code: ErrorCode): GoError { Record(StatusConflict, code, "") }

  function Duplicate2(message: string, code: ErrorCode): GoError { Record(StatusConflict, code, message) }

  /** The HTTP status each constructor family puts in its record. */
  lemma ConstructorStatuses(message: string, code: ErrorCode)
    ensures BadRequest0().dto.httpErrorCode == 400 && BadRequest0().dto.errorMessage == "Bad request"
    ensures BadRequest2(message, code).dto == DtoBattleError(None, 400, code, message, map[])
    ensures Forbidden2(message, code).dto == DtoBattleError(None, 403, code, message, map[])
    ensures Forbidden1(message).dto.httpErrorCode == 403 && Unauthorized(message).dto.httpErrorCode == 401
    ensures NotFoundError0().dto.errorMessage == "Not found" && NotFoundError1(message).dto.httpErrorCode == 404
    ensures Duplicate1(message).dto.httpErrorCode == 409 && Duplicate11(code).dto.errorMessage == ""
  {
  }

  /** parseErrorMessage: classification of an error by its text; the first
      matching case wins. */
  function ParseErrorMessage(err: GoError): (r: GoError)
    ensures r.Dto?
    ensures ErrorText(err) == MsgNoDocuments ==>
              r.dto == DtoBattleError(Some(err), StatusNotFound, 0, "not found", map[])
    ensures ErrorText(err) in {MsgRevealedLocation, MsgAlreadyDestroyed} ==>
              r.dto == DtoBattleError(None, StatusBadRequest, ShipInvalidMove, ErrorText(err), map[])
    ensures ErrorText(err) == MsgNotUserTurn ==>
              r.dto == DtoBattleError(None, StatusForbidden, ShipInvalidMove, MsgNotUserTurn, map[])
    ensures ErrorText(err) !in {MsgNoDocuments, MsgRevealedLocation, MsgAlreadyDestroyed, MsgNotUserTurn} ==>
              if HasPrefix(ErrorText(err), HexErrorPrefix)
              then r.dto == DtoBattleError(None, StatusBadRequest, 0, "Invalid id", map[])
              else r.dto == DtoBattleError(Some(err), StatusInternalServerError, 0,
                                           "cannot parse error message: " + ErrorText(err), map[])
  {
    var text := ErrorText(err);
    if text == MsgNoDocuments then
      Dto(DtoBattleError(Some(err), StatusNotFound, 0, "not found", map[]))
    else if text == MsgRevealedLocation then
      BadRequest2(text, ShipInvalidMove)
    else if text == MsgAlreadyDestroyed then
      BadRequest2(text, ShipInvalidMove)
    else if text == MsgNotUserTurn then
      Forbidden2(text, ShipInvalidMove)
    else if HasPrefix(text, HexErrorPrefix) then
      BadRequest1("Invalid id")
    else
      Dto(DtoBattleError(Some(err), StatusInternalServerError, 0, "cannot parse error message: " + text, map[]))
  }

  /** ParseError: nil stays nil; a dto.BattleError is copied with the input as
      its cause and its ErrorCode dropped; anything else is classified. */
  function ParseError(err: Option<GoError>): (r: Option<GoError>)
    ensures err.None? <==> r.None?
    ensures r.Some? ==> r.value.Dto?
  {
    match err
    case None => None
    case Some(e) =>
      if e.Dto? then
        Some(Dto(DtoBattleError(Some(e), e.dto.httpErrorCode, 0, e.dto.errorMessage, e.dto.errorData)))
      else
        Some(ParseErrorMessage(e))
  }

  /** Re-parsing a dto record keeps HttpErrorCode, ErrorMessage and ErrorData
      and drops ErrorCode: a ShipInvalidMove-coded record and an uncoded one
      become indistinguishable. */
  lemma ParseErrorCopiesRecord(e: DtoBattleError)
    ensures ParseError(Some(Dto(e))) ==
            Some(Dto(e.(errorCause := Some(Dto(e)), errorCode := 0)))
  {
  }

  /** ParseError is idempotent on what a client sees. */
  lemma ParseErrorIdempotent(err: GoError)
    ensures var once := ParseError(Some(err)).value.dto;
            var twice := ParseError(ParseError(Some(err))).value.dto;
            twice.httpErrorCode == once.httpErrorCode && twice.errorMessage == once.errorMessage &&
            twice.errorData == once.errorData && twice.errorCode == 0
  {
  }

  /** The sentinel errors of error_codes map to the statuses the game
      service relies on: ship-move errors are 400, NotUserTurn is 403. */
  lemma SentinelClassification()
    ensures ParseError(Some(Plain(MsgRevealedLocation))).value.dto.httpErrorCode == StatusBadRequest
    ensures ParseError(Some(Plain(MsgAlreadyDestroyed))).value.dto.httpErrorCode == StatusBadRequest
    ensures ParseError(Some(NotUserTurn)).value.dto == DtoBattleError(None, StatusForbidden, ShipInvalidMove, MsgNotUserTurn, map[])
    ensures ParseError(Some(Plain(MsgNoDocuments))).value.dto.errorMessage == "not found"
  {
  }

  /** A battle_error record reaching the dto ParseError (the DAO returns those)
      is not recognised: its formatted text lands in the 500 default case. */
  lemma ParseErrorOfBattleRecord(e: BattleError)
    ensures ParseError(Some(Battle(e))).value.dto.httpErrorCode == StatusInternalServerError
    ensures ParseError(Some(Battle(e))).value.dto.errorCause == Some(Battle(e))
  {
    RecordTextIsRecognisable(Battle(e));
  }
}
