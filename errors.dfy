/** The error vocabulary shared by the whole server: Go's `error` values as
    the program observes them, the numeric error codes of
    error_codes/error_codes.go, the sentinel errors declared there, and the
    two `BattleError` records of dto/battleship_error.go and
    battle_error/battleship_error.go.  The two records live here, side by
    side, because either can be the `cause` of the other. */
module Errors {

  datatype Option<+T> = None | Some(value: T)

  datatype Result<+T> = Ok(value: T) | Err(error: GoError)
  {
    predicate IsFailure() { Err? }
    function PropagateFailure<U>(): Result<U> requires Err? { Err(error) }
    function Extract(): T requires Ok? { value }
  }

  // HTTP status codes (net/http) used by the two error packages.
  const StatusBadRequest := 400
  const StatusUnauthorized := 401
  const StatusForbidden := 403
  const StatusNotFound := 404
  const StatusConflict := 409
  const StatusInternalServerError := 500

  /** error_codes.ErrorCode is an `iota` enumeration: its zero value, the one a
      record gets when no code is given, is the same number as ShipInvalidMove. */
  type ErrorCode = int
  const ShipInvalidMove: ErrorCode := 0
  const InvalidGameStatus: ErrorCode := 1
  const InvalidShipIndexValue: ErrorCode := 2
  const GameIsFinished: ErrorCode := 3

  // Texts of the sentinel errors created with errors.New in error_codes.
  const MsgRevealedLocation := "cannot move ship to revealed location"
  const MsgAlreadyDestroyed := "cannot move ship that is already destroyed"
  const MsgNotUserTurn := "its not user turn"

  // Texts the MongoDB driver and encoding/hex produce, as matched by parseErrorMessage.
  const MsgNoDocuments := "mongo: no documents in result"
  const HexErrorPrefix := "encoding/hex:"

  /** A Go `error` value. */
  datatype GoError =
    | Plain(text: string)          // errors.New, driver and decoder errors: only the text matters
    | Dto(dto: DtoBattleError)     // a *dto.BattleError
    | Battle(battle: BattleError)  // a *battle_error.BattleError
    | Panic(reason: string)        // a Go run-time panic that unwinds the handler

  /** dto.BattleError; a nil ErrorData map is the empty map. */
  datatype DtoBattleError = DtoBattleError(
    errorCause: Option<GoError>,
    httpErrorCode: int,
    errorCode: ErrorCode,
    errorMessage: string,
    errorData: map<string, string>)

  /** battle_error.BattleError; a nil Data map is the empty map. */
  datatype BattleError = BattleError(
    cause: Option<GoError>,
    httpCode: int,
    errorCode: ErrorCode,
    message: string,
    data: map<string, string>)

  /** The sentinel error_codes.NotUserTurn.  errors.Is compares sentinels by
      identity; the model compares them as values, which agrees as long as no
      other error carries the same text. */
  const NotUserTurn := Plain(MsgNotUserTurn)

  /** The run-time panic of dereferencing a nil pointer (a nil *ObjectID,
      a nil *websocket.Conn). */
  const NilDeref := Panic("invalid memory address or nil pointer dereference")

  function HasPrefix(s: string, prefix: string): bool {
    |prefix| <= |s| && s[..|prefix|] == prefix
  }

  /** Decimal rendering of a natural number, as fmt's %d writes it. */
  function NatToString(n: nat): (s: string)
    ensures |s| > 0
    ensures forall i :: 0 <= i < |s| ==> '0' <= s[i] <= '9'
    decreases n
  {
    var digit := ["0", "1", "2", "3", "4", "5", "6", "7", "8", "9"][n % 10];
    if n < 10 then digit else NatToString(n / 10) + digit
  }

  function IntToString(n: int): string {
    if n < 0 then "-" + NatToString(-n) else NatToString(n)
  }

  /** The text both BattleError records begin with. */
  const RecordPrefix := "BattleError with message '"

  /** The Sprintf both BattleError.Error methods use, with or without the
      cause's text: the message comes right after the fixed prefix, and the
      cause, when there is one, closes the text. */
  function RecordText(message: string, httpCode: int, errorCode: int, cause: Option<string>): (t: string)
    ensures HasPrefix(t, RecordPrefix + message)
    ensures cause.Some? ==> var tail := CauseText(cause.value);
                            |tail| <= |t| && t[|t| - |tail|..] == tail
  {
    var tail := if cause.Some? then CauseText(cause.value) else "";
    var head := RecordPrefix + message;
    var middle := "' and http code '" + IntToString(httpCode) + "' and server code " + IntToString(errorCode);
    ConcatEnds(head, middle, tail);
    head + middle + tail
  }

  /** The cause part of the Sprintf. */
  function CauseText(cause: string): string {
    " and cause '" + cause + "'"
  }

  /** A concatenation starts with its first part and ends with its last. */
  lemma ConcatEnds(a: string, b: string, c: string)
    ensures HasPrefix(a + b + c, a)
    ensures (a + b + c)[|a + b + c| - |c|..] == c
  {
    assert (a + b + c)[..|a|] == a;
  }

  /** err.Error(): the two BattleError records format themselves with
      Sprintf; a plain error is its own text. */
  function ErrorText(err: GoError): (t: string)
    ensures err.Plain? ==> t == err.text
    ensures err.Dto? ==> HasPrefix(t, RecordPrefix + err.dto.errorMessage)
    ensures err.Battle? ==> HasPrefix(t, RecordPrefix + err.battle.message)
  {
    match err
    case Plain(text) => text
    case Panic(reason) => "panic: " + reason
    case Dto(e) =>
      RecordText(e.errorMessage, e.httpErrorCode, e.errorCode,
                 if e.errorCause.Some? then Some(ErrorText(e.errorCause.value)) else None)
    case Battle(e) =>
      RecordText(e.message, e.httpCode, e.errorCode,
                 if e.cause.Some? then Some(ErrorText(e.cause.value)) else None)
  }

  /** The text of a BattleError never looks like a driver, hex or sentinel
      error, so parseErrorMessage sends any BattleError to its default case. */
  lemma RecordTextIsRecognisable(err: GoError)
    requires err.Dto? || err.Battle?
    ensures HasPrefix(ErrorText(err), RecordPrefix)
    ensures ErrorText(err) != MsgNoDocuments && !HasPrefix(ErrorText(err), HexErrorPrefix)
    ensures ErrorText(err) != MsgRevealedLocation && ErrorText(err) != MsgAlreadyDestroyed
    ensures ErrorText(err) != MsgNotUserTurn
  {
    var t := ErrorText(err);
    var full := if err.Dto? then RecordPrefix + err.dto.errorMessage else RecordPrefix + err.battle.message;
    assert t[..|RecordPrefix|] == full[..|RecordPrefix|] == RecordPrefix;
    assert MsgNoDocuments[0] == 'm' && HexErrorPrefix[0] == 'e';
    assert MsgRevealedLocation[0] == 'c' && MsgAlreadyDestroyed[0] == 'c' && MsgNotUserTurn[0] == 'i';
  }
}
