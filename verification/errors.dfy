/**
 * Error shapes. The authentication code answers failures with a status and
 * a two-field JSON envelope `{error, code}`; the resource handlers answer
 * with a status and a bare text body.
 */
module ErrorShape {
  import opened Common

  const StatusOk: int := 200
  const StatusCreated: int := 201
  const StatusNoContent: int := 204
  const StatusBadRequest: int := 400
  const StatusUnauthorized: int := 401
  const StatusNotFound: int := 404
  const StatusConflict: int := 409
  const StatusInternal: int := 500

  /** The JSON error envelope: exactly a human message and a machine code. */
  datatype ErrorResp = ErrorResp(error: string, code: string)

  /** An error answer of the authentication code: a status and the envelope. */
  datatype ErrorReply = ErrorReply(status: int, body: ErrorResp)

  /** `json_error`: the given status with the envelope holding the given message and code. */
  function JsonError(status: int, code: string, msg: string): (r: ErrorReply)
    ensures r.status == status && r.body.error == msg && r.body.code == code
  {
    ErrorReply(status, ErrorResp(msg, code))
  }

  /** `internal_json`: status 500, code "internal", the error's display text as message. */
  function InternalJson(display: string): (r: ErrorReply)
    ensures r.status == StatusInternal && r.body.code == "internal" && r.body.error == display
  {
    JsonError(StatusInternal, "internal", display)
  }

  /** `bad_request_json`: status 400, code "bad_request", the error's display text as message. */
  function BadRequestJson(display: string): (r: ErrorReply)
    ensures r.status == StatusBadRequest && r.body.code == "bad_request" && r.body.error == display
  {
    JsonError(StatusBadRequest, "bad_request", display)
  }

  /** The status each machine code used by the envelope stands for. */
  function CodeStatus(code: string): Option<int> {
    if code == "bad_request" || code == "invalid_request" then Some(StatusBadRequest)
    else if code == "invalid_credentials" || code == "missing_authorization"
         || code == "invalid_authorization" || code == "invalid_token" then Some(StatusUnauthorized)
    else if code == "internal" then Some(StatusInternal)
    else None
  }

  /** An envelope whose status agrees with its code. */
  predicate Conforms(r: ErrorReply) {
    CodeStatus(r.body.code) == Some(r.status)
  }

  /** Both generic helpers answer with the status their code stands for, whatever the error. */
  lemma HelpersConform(display: string)
    ensures Conforms(InternalJson(display)) && Conforms(BadRequestJson(display))
  {
  }

  /**
   * The answer of a resource handler: a success status with a body, or an
   * error status with a plain text body.
   */
  datatype Reply<T> = Done(status: int, body: T) | Fail(status: int, text: string)

  /** The handlers' `internal`: status 500 with the error's display text. */
  function Internal<T>(display: string): (r: Reply<T>)
    ensures r.Fail? && r.status == StatusInternal && r.text == display
  {
    Fail(StatusInternal, display)
  }

  /** The handlers' `bad_request`: status 400 with the error's display text. */
  function BadRequest<T>(display: string): (r: Reply<T>)
    ensures r.Fail? && r.status == StatusBadRequest && r.text == display
  {
    Fail(StatusBadRequest, display)
  }

  /**
   * The answer to a lookup or update by id: 200 with the row, 404 with the
   * handler's text when there is no such row, 500 with the error's display
   * text when the database fails.
   */
  function FromFound<T>(r: Result<Option<T>, DbErr>, notFound: string): (reply: Reply<T>)
    ensures reply.Done? <==> r.Ok? && r.value.Some?
    ensures reply.Done? ==> reply.status == StatusOk && reply.body == r.value.value
    ensures r.Ok? && r.value.None? ==> reply == Fail(StatusNotFound, notFound)
    ensures r.Err? ==> reply == Internal(r.error.message)
  {
    match r
    case Err(e) => Internal(e.message)
    case Ok(None) => Fail(StatusNotFound, notFound)
    case Ok(Some(row)) => Done(StatusOk, row)
  }

  /**
   * The answer to a delete: 204 when a row was removed, 404 with the
   * handler's text when none was, 500 when the database fails.
   */
  function FromDeleted(r: Result<nat, DbErr>, notFound: string): (reply: Reply<()>)
    ensures reply.Done? <==> r.Ok? && r.value != 0
    ensures reply.Done? ==> reply.status == StatusNoContent
    ensures r == Ok(0) ==> reply == Fail(StatusNotFound, notFound)
    ensures r.Err? ==> reply == Internal(r.error.message)
  {
    match r
    case Err(e) => Internal(e.message)
    case Ok(affected) => if affected == 0 then Fail(StatusNotFound, notFound) else Done(StatusNoContent, ())
  }
}
