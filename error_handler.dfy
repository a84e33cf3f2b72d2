/**
 * The API's error middleware: how a thrown error becomes an HTTP status and a message, and the
 * catch-all answer for unknown routes.
 *
 * The handler copies the error, then runs a fixed series of tests on the error's `code` and
 * `name`; each test that matches replaces the copy, so the last matching test decides.
 */
module ErrorResponses {
  import opened Wrappers
  import opened Strings

  const DefaultMessage := "Erro interno do servidor"
  const NotFoundMessage := "Rota não encontrada"

  /**
   * The fields of a thrown error that the handler reads. An absent `message` is the empty string;
   * `fieldMessages` are the messages of `err.errors`, in the order of its keys.
   */
  datatype ThrownError = ThrownError(
    code: string, name: string, message: string, statusCode: Option<int>, fieldMessages: seq<string>)

  /** The handler's local `error`: a message and maybe a status. */
  datatype Draft = Draft(message: string, statusCode: Option<int>)

  datatype Response = Response(status: int, message: string)

  /** One `if` of the handler: when `matches`, the draft is replaced. */
  function Override(d: Draft, matches: bool, message: string, status: int): Draft
  {
    if matches then Draft(message, Some(status)) else d
  }

  /** The handler's draft after its tests, run in source order. */
  function Classify(err: ThrownError): Draft
  {
    var d0 := Draft(err.message, err.statusCode);
    var d1 := Override(d0, err.code == "ER_DUP_ENTRY", "Recurso duplicado", 409);
    var d2 := Override(d1, err.code == "ER_BAD_NULL_ERROR", "Campo obrigatório não fornecido", 400);
    var d3 := Override(d2, err.code == "ER_PARSE_ERROR", DefaultMessage, 500);
    var d4 := Override(d3, err.code == "ECONNREFUSED" || err.code == "ER_ACCESS_DENIED_ERROR",
                       "Erro de conexão com o banco de dados", 503);
    var d5 := Override(d4, err.name == "JsonWebTokenError", "Token inválido", 401);
    var d6 := Override(d5, err.name == "TokenExpiredError", "Token expirado", 401);
    var d7 := Override(d6, err.name == "ValidationError", Join(err.fieldMessages, ", "), 400);
    Override(d7, err.name == "CastError", "Recurso não encontrado", 404)
  }

  /** `errorHandler`: the status is the draft's, or 500 when it is absent or 0; an empty message falls back to the default. */
  function HandleError(err: ThrownError): (r: Response)
    ensures r.status != 0 && r.message != []
  {
    var d := Classify(err);
    Response(if d.statusCode.None? || d.statusCode.value == 0 then 500 else d.statusCode.value,
             if d.message == [] then DefaultMessage else d.message)
  }

  /** `notFound`: every unknown route is 404. */
  function NotFound(httpMethod: string, url: string): (r: Response)
    ensures r == Response(404, NotFoundMessage)
  {
    Response(404, NotFoundMessage)
  }

  // ---------------------------------------------------------------- the decision table

  /** The table the handler implements, read by precedence: the `name` tests outrank the `code` tests. */
  function ByName(name: string, fieldMessages: seq<string>): Option<Response>
  {
    if name == "CastError" then Some(Response(404, "Recurso não encontrado"))
    else if name == "ValidationError" then
      var m := Join(fieldMessages, ", ");
      Some(Response(400, if m == [] then DefaultMessage else m))
    else if name == "TokenExpiredError" then Some(Response(401, "Token expirado"))
    else if name == "JsonWebTokenError" then Some(Response(401, "Token inválido"))
    else None
  }

  function ByCode(code: string): Option<Response>
  {
    if code == "ER_DUP_ENTRY" then Some(Response(409, "Recurso duplicado"))
    else if code == "ER_BAD_NULL_ERROR" then Some(Response(400, "Campo obrigatório não fornecido"))
    else if code == "ER_PARSE_ERROR" then Some(Response(500, DefaultMessage))
    else if code == "ECONNREFUSED" || code == "ER_ACCESS_DENIED_ERROR" then Some(Response(503, "Erro de conexão com o banco de dados"))
    else None
  }

  /** The handler agrees with the table: a known name decides, else a known code, else the error's own fields. */
  lemma HandlerFollowsTable(err: ThrownError)
    ensures ByName(err.name, err.fieldMessages).Some? ==> HandleError(err) == ByName(err.name, err.fieldMessages).value
    ensures ByName(err.name, err.fieldMessages).None? && ByCode(err.code).Some? ==> HandleError(err) == ByCode(err.code).value
    ensures ByName(err.name, err.fieldMessages).None? && ByCode(err.code).None? ==>
      HandleError(err) == Response(
        if err.statusCode.None? || err.statusCode.value == 0 then 500 else err.statusCode.value,
        if err.message == [] then DefaultMessage else err.message)
  {
  }

  /** A recognised error always gets one of the handler's own statuses. */
  lemma RecognisedStatuses(err: ThrownError)
    requires ByName(err.name, err.fieldMessages).Some? || ByCode(err.code).Some?
    ensures HandleError(err).status in {400, 401, 404, 409, 500, 503}
  {
    HandlerFollowsTable(err);
  }

  /** A database error that is also a token error is answered as the token error. */
  lemma NameOutranksCode(fieldMessages: seq<string>, message: string, statusCode: Option<int>)
    ensures HandleError(ThrownError("ER_DUP_ENTRY", "TokenExpiredError", message, statusCode, fieldMessages)) ==
      Response(401, "Token expirado")
  {
  }

  /** A `ValidationError` with no field messages falls back to the default message, still with 400. */
  lemma EmptyValidationError(code: string, message: string, statusCode: Option<int>)
    ensures HandleError(ThrownError(code, "ValidationError", message, statusCode, [])) == Response(400, DefaultMessage)
  {
  }
}
