/** battle_error/battleship_error.go: the error record used by the DAO layer
    and the older model, its constructors, and ParseError, which turns any
    Go error into such a record. */
module BattleErrors {
  import opened Errors

  function Record(httpCode: int, errorCode: ErrorCode, message: string): GoError {
    Battle(BattleError(None, httpCode, errorCode, message, map[]))
  }

  // The constructors.  Those without a code leave ErrorCode at its zero value.

  function EntityNotFound(message: string, entityName: string, entityValue: string): GoError {
    Battle(BattleError(None, StatusNotFound, 0, message,
                       map["entityName" := entityName, "entityValue" := entityValue]))
  }

  function ValidationError(message: string): GoError { Record(StatusBadRequest, 0, message) }

  /** BadRequest0 carries no message at all. */
  function BadRequest0(): GoError { Record(StatusBadRequest, 0, "") }

  function BadRequest1(message: string): GoError { Record(StatusBadRequest, 0, message) }

  function BadRequest2(message: string, code: ErrorCode): GoError { Record(StatusBadRequest, code, message) }

  function Unauthorized(message: string): GoError { Record(StatusUnauthorized, 0, message) }

  function Forbidden(message: string, errorCode: ErrorCode): GoError { Record(StatusForbidden, errorCode, message) }

  function NotFoundError0(): GoError { Record(StatusNotFound, 0, "") }

  function NotFoundError1(message: string): GoError { Record(StatusNotFound, 0, message) }

  function NotFoundError2(message: string, errorCode: ErrorCode): GoError { Record(StatusNotFound, errorCode, message) }

  /** The HTTP status and message each constructor puts in its record. */
  lemma ConstructorFields(message: string, code: ErrorCode, name: string, value: string)
    ensures BadRequest0().battle.httpCode == 400 && BadRequest0().battle.message == ""
    ensures BadRequest1(message).battle.httpCode == 400 && BadRequest1(message).battle.message == message
    ensures BadRequest2(message, code).battle == BattleError(None, 400, code, message, map[])
    ensures Forbidden(message, code).battle == BattleError(None, 403, code, message, map[])
    ensures Unauthorized(message).battle.httpCode == 401
    ensures NotFoundError0().battle.httpCode == 404 && NotFoundError0().battle.message == ""
    ensures NotFoundError2(message, code).battle == BattleError(None, 404, code, message, map[])
    ensures EntityNotFound(message, name, value).battle.data.Keys == {"entityName", "entityValue"}
  {
  }

  /** parseErrorMessage: classification of an error that is not a
      battle_error.BattleError, by its text; the first matching case wins. */
  function ParseErrorMessage(err: GoError): (r: GoError)
    ensures r.Battle?
    ensures ErrorText(err) == MsgNoDocuments ==>
              r.battle == BattleError(Some(err), StatusNotFound, 0, "not found", map[])
    ensures ErrorText(err) != MsgNoDocuments && HasPrefix(ErrorText(err), HexErrorPrefix) ==>
              r.battle == BattleError(None, StatusBadRequest, 0, "Invalid id", map[])
    ensures ErrorText(err) != MsgNoDocuments && !HasPrefix(ErrorText(err), HexErrorPrefix) ==>
              r.battle == BattleError(Some(err), StatusInternalServerError, 0,
                                      "cannot parse error message: " + ErrorText(err), map[])
  {
    var text := ErrorText(err);
    if text == MsgNoDocuments then
      Battle(BattleError(Some(err), StatusNotFound, 0, "not found", map[]))
    else if HasPrefix(text, HexErrorPrefix) then
      BadRequest1("Invalid id")
    else
      Battle(BattleError(Some(err), StatusInternalServerError, 0, "cannot parse error message: " + text, map[]))
  }

  /** ParseError: nil stays nil; a battle_error.BattleError is copied with the
      input as its cause and its ErrorCode dropped; anything else is classified. */
  function ParseError(err: Option<GoError>): (r: Option<GoError>)
    ensures err.None? <==> r.None?
    ensures r.Some? ==> r.value.Battle?
  {
    match err
    case None => None
    case Some(e) =>
      if e.Battle? then
        Some(Battle(BattleError(Some(e), e.battle.httpCode, 0, e.battle.message, e.battle.data)))
      else
        Some(ParseErrorMessage(e))
  }

  /** Re-parsing a battle_error record keeps its status, message and data,
      records the input as the cause, and resets the ErrorCode to zero (which
      reads back as ShipInvalidMove). */
  lemma ParseErrorCopiesRecord(e: BattleError)
    ensures ParseError(Some(Battle(e))) ==
            Some(Battle(e.(cause := Some(Battle(e)), errorCode := 0)))
    ensures ParseError(Some(Battle(e))).value.battle.errorCode == ShipInvalidMove
  {
  }

  /** ParseError is idempotent on everything a client sees: a second pass
      changes neither the status, the message nor the data. */
  lemma ParseErrorIdempotent(err: GoError)
    ensures var once := ParseError(Some(err)).value.battle;
            var twice := ParseError(ParseError(Some(err))).value.battle;
            twice.httpCode == once.httpCode && twice.message == once.message &&
            twice.data == once.data && twice.errorCode == 0
  {
  }

  /** The statuses a plain error can be mapped to. */
  lemma ParsedPlainStatuses(text: string)
    ensures ParseError(Some(Plain(text))).value.battle.httpCode in {StatusNotFound, StatusBadRequest, StatusInternalServerError}
    ensures text == MsgNoDocuments <==> ParseError(Some(Plain(text))).value.battle.httpCode == StatusNotFound
  {
  }

  /** A store error of the dto package is not a battle_error record, so its
      formatted text is wrapped by the default case. */
  lemma ParseErrorOfDtoRecord(e: DtoBattleError)
    ensures ParseError(Some(Dto(e))).value.battle.httpCode == StatusInternalServerError
    ensures ParseError(Some(Dto(e))).value.battle.message == "cannot parse error message: " + ErrorText(Dto(e))
  {
    RecordTextIsRecognisable(Dto(e));
  }
}
