/**
 * The error middleware as a pure function from the thrown error and the
 * runtime mode to the HTTP status and JSON body it sends.
 */
module ErrorHandler {
  import opened Wrappers
  import opened Text

  /**
   * A thrown error as the middleware reads it. `status` is the optional
   * `err.status` property, `details` the optional list of detail messages.
   */
  datatype JsError = JsError(name: string, status: Option<int>, message: string, details: Option<seq<string>>, stack: Option<string>)

  datatype ErrorBody = ErrorBody(success: bool, message: string, stack: Option<string>)

  datatype ErrorResponse = ErrorResponse(status: int, body: ErrorBody)

  const InternalMessage := "Error interno del servidor"
  const ValidationMessage := "Error de validación"
  const UnauthorizedMessage := "No estás autorizado para realizar esta acción."
  const InvalidTokenMessage := "Token inválido. Autenticación fallida."
  const ExpiredTokenMessage := "Token expirado. Por favor, inicia sesión nuevamente."
  const ForbiddenMessage := "No tienes permiso para acceder a este recurso."
  const NotFoundMessage := "Recurso no encontrado."

  /** `err.status || 500`. */
  function DefaultStatus(err: JsError): int {
    if err.status.Some? && err.status.value != 0 then err.status.value else 500
  }

  /** `err.message || 'Error interno del servidor'`. */
  function DefaultMessage(err: JsError): string {
    if err.message != "" then err.message else InternalMessage
  }

  predicate IsTokenError(err: JsError) {
    err.name == "JsonWebTokenError" || err.name == "TokenExpiredError"
  }

  /** `errorHandler`, with `isDevelopment` for `NODE_ENV === 'development'`. */
  function HandleError(err: JsError, isDevelopment: bool): (r: ErrorResponse)
    ensures !r.body.success
    ensures r.body.stack == if isDevelopment then err.stack else None
    ensures err.name == "ValidationError" ==> r.status == 400
    ensures err.name == "ValidationError" && err.details.Some? ==> r.body.message == Join(err.details.value, ", ")
    ensures err.name == "ValidationError" && err.details.None? ==>
      r.body.message == if err.message != "" then err.message else ValidationMessage
    ensures err.name == "JsonWebTokenError" ==> r.status == 401 && r.body.message == InvalidTokenMessage
    ensures err.name == "TokenExpiredError" ==> r.status == 401 && r.body.message == ExpiredTokenMessage
    ensures err.name != "ValidationError" && !IsTokenError(err) ==> r.status == DefaultStatus(err)
    ensures r.status == 403 ==> r.body.message == ForbiddenMessage
    ensures r.status != 403 && err.name != "ValidationError" && !IsTokenError(err) ==> r.body.message == DefaultMessage(err)
  {
    var status0 := DefaultStatus(err);
    var message0 := DefaultMessage(err);
    var (status1, message1) :=
      if err.name == "ValidationError" then
        (400, if err.details.Some? then Join(err.details.value, ", ")
              else if err.message != "" then err.message else ValidationMessage)
      else (status0, message0);
    var message2 := if status1 == 401 && message1 == "" then UnauthorizedMessage else message1;
    var (status3, message3) :=
      if err.name == "JsonWebTokenError" then (401, InvalidTokenMessage) else (status1, message2);
    var (status4, message4) :=
      if err.name == "TokenExpiredError" then (401, ExpiredTokenMessage) else (status3, message3);
    var message5 := if status4 == 403 then ForbiddenMessage else message4;
    var message6 := if status4 == 404 && message5 == "" then NotFoundMessage else message5;
    ErrorResponse(status4, ErrorBody(false, message6, if isDevelopment then err.stack else None))
  }

  /**
   * For a 401 or 404 the message is the one the error carried (or the
   * internal-error default): the middleware's own 401 and 404 fallback texts
   * are never sent, because the message can only be empty for a validation
   * error, whose status is 400.
   */
  lemma NoUnauthorizedOrNotFoundFallback(err: JsError, isDevelopment: bool)
    ensures HandleError(err, isDevelopment).body.message == UnauthorizedMessage ==>
      err.message == UnauthorizedMessage || err.name == "ValidationError"
    ensures HandleError(err, isDevelopment).body.message == NotFoundMessage ==>
      err.message == NotFoundMessage || err.name == "ValidationError"
    ensures var r := HandleError(err, isDevelopment);
      (r.status == 401 || r.status == 404) && !IsTokenError(err) && err.message != "" ==> r.body.message == err.message
  {
  }

  /** Every detail message of a validation error appears in the response message. */
  lemma ValidationDetailsReported(err: JsError, isDevelopment: bool)
    requires err.name == "ValidationError" && err.details.Some?
    ensures forall i :: 0 <= i < |err.details.value| ==> Occurs(err.details.value[i], HandleError(err, isDevelopment).body.message)
  {
    JoinContainsParts(err.details.value, ", ");
  }

  /** The response message is empty only for a validation error whose details join to nothing. */
  lemma MessageEmptyOnlyForEmptyDetails(err: JsError, isDevelopment: bool)
    ensures HandleError(err, isDevelopment).body.message == "" ==>
      && err.name == "ValidationError" && err.details.Some?
      && (|err.details.value| == 0 || (|err.details.value| == 1 && err.details.value[0] == ""))
  {
    if err.name == "ValidationError" && err.details.Some? {
      JoinEmpty(err.details.value, ", ");
    }
  }
}
