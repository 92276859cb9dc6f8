/** The application's last two middlewares: `errorHandler`, which turns any
    error passed to `next` into a JSON reply, and `notFound`, which forwards
    an error for every unmatched route. */
module ErrorHandler {
  import opened Js
  import opened Http

  const DUPLICATE_KEY := "23505"
  const FOREIGN_KEY := "23503"
  const NOT_NULL := "23502"
  const CHECK_VIOLATION := "23514"
  const JWT_ERROR := "JsonWebTokenError"
  const TOKEN_EXPIRED := "TokenExpiredError"
  const VALIDATION_ERROR := "ValidationError"
  const FALLBACK_MESSAGE := "Internal Server Error"
  const NOT_FOUND_PREFIX := "Not found - "

  /** An error as the handler reads it: its `code` (a PostgreSQL SQLSTATE
      for database errors), `name`, `message`, the `statusCode` it carries
      as an own property (None when it has none), and what
      `Object.values(err.errors)` lists (None when `errors` is undefined or
      null, where that call throws). */
  datatype Thrown = Thrown(code: Value, name: Value, message: Value, statusCode: Option<int>, errors: Option<seq<Value>>)

  /** The handler's local `error`: the message and status it will answer with. */
  datatype Summary = Summary(message: Value, statusCode: Option<int>)

  /** `values.map(val => val.message)`; None when some value is null or
      undefined, where reading `.message` throws. */
  function Messages(values: seq<Value>): (messages: Option<seq<Value>>)
    ensures messages.Some? <==> forall i :: 0 <= i < |values| ==> Member(values[i], "message").Some?
    ensures messages.Some? ==>
      |messages.value| == |values| && forall i :: 0 <= i < |values| ==> messages.value[i] == Member(values[i], "message").value
  {
    if values == [] then Some([])
    else
      var last := Member(values[|values| - 1], "message");
      match Messages(values[..|values| - 1])
      case None => None
      case Some(front) => if last.None? then None else Some(front + [last.value])
  }

  /** The messages of a ValidationError, when listing them does not throw. */
  function ValidationMessages(errors: Option<seq<Value>>): Option<seq<Value>>
  {
    if errors.None? then None else Messages(errors.value)
  }

  /** What the handler answers with, stated by priority: the checks run in
      sequence and each match overwrites the previous one, so the LAST
      matching check decides, and an error that matches none keeps its own
      message and status. None: the handler throws while listing the
      messages of a ValidationError. */
  function Classified(err: Thrown): Option<Summary>
  {
    if err.name == Str(VALIDATION_ERROR) then
      (match ValidationMessages(err.errors)
       case None => None
       case Some(messages) => Some(Summary(Arr(messages), Some(400))))
    else if err.name == Str(TOKEN_EXPIRED) then Some(Summary(Str("Token expired"), Some(401)))
    else if err.name == Str(JWT_ERROR) then Some(Summary(Str("Invalid token"), Some(401)))
    else if err.code == Str(CHECK_VIOLATION) then Some(Summary(Str("Invalid field value"), Some(400)))
    else if err.code == Str(NOT_NULL) then Some(Summary(Str("Required field is missing"), Some(400)))
    else if err.code == Str(FOREIGN_KEY) then Some(Summary(Str("Referenced resource not found"), Some(400)))
    else if err.code == Str(DUPLICATE_KEY) then Some(Summary(Str("Duplicate field value entered"), Some(400)))
    else Some(Summary(err.message, err.statusCode))
  }

  /** `res.status(error.statusCode || 500).json({ error: error.message || 'Internal Server Error' })`,
      or None when the handler throws before it gets there. */
  function Answer(err: Thrown): Option<Reply>
  {
    match Classified(err)
    case None => None
    case Some(e) =>
      var status := if e.statusCode.Some? && e.statusCode.value != 0 then e.statusCode.value else 500;
      Some(Reply(status, map["error" := Or(e.message, Str(FALLBACK_MESSAGE))]))
  }

  /** `errorHandler(err, req, res, next)`: the local `error` starts as the
      error's own message and status and is overwritten by each check that
      matches, in the order of the source; the reply is then sent. When
      listing a ValidationError's messages throws (`threw`), nothing is
      sent and the status is left as it was. */
  method HandleError(err: Thrown, res: Response) returns (threw: bool)
    modifies res
    ensures threw <==> Answer(err).None?
    ensures threw ==> res.sent == old(res.sent) && res.statusCode == old(res.statusCode)
    ensures !threw ==> res.sent == Some(Answer(err).value) && res.statusCode == Answer(err).value.status
  {
    var error := Summary(err.message, err.statusCode);
    if err.code == Str(DUPLICATE_KEY) {
      error := Summary(Str("Duplicate field value entered"), Some(400));
    }
    if err.code == Str(FOREIGN_KEY) {
      error := Summary(Str("Referenced resource not found"), Some(400));
    }
    if err.code == Str(NOT_NULL) {
      error := Summary(Str("Required field is missing"), Some(400));
    }
    if err.code == Str(CHECK_VIOLATION) {
      error := Summary(Str("Invalid field value"), Some(400));
    }
    if err.name == Str(JWT_ERROR) {
      error := Summary(Str("Invalid token"), Some(401));
    }
    if err.name == Str(TOKEN_EXPIRED) {
      error := Summary(Str("Token expired"), Some(401));
    }
    if err.name == Str(VALIDATION_ERROR) {
      if err.errors.None? {
        return true;
      }
      var messages := Messages(err.errors.value);
      if messages.None? {
        return true;
      }
      error := Summary(Arr(messages.value), Some(400));
    }
    var status := if error.statusCode.Some? && error.statusCode.value != 0 then error.statusCode.value else 500;
    res.Send(status, map["error" := Or(error.message, Str(FALLBACK_MESSAGE))]);
    threw := false;
  }

  /** The four constraint-violation SQLSTATEs each answer 400 with their own
      fixed message, unless the error's name matches one of the later checks. */
  lemma ConstraintCodesAnswer400(err: Thrown)
    requires err.name !in {Str(JWT_ERROR), Str(TOKEN_EXPIRED), Str(VALIDATION_ERROR)}
    ensures err.code == Str(DUPLICATE_KEY) ==> Answer(err) == Some(Reply(400, map["error" := Str("Duplicate field value entered")]))
    ensures err.code == Str(FOREIGN_KEY) ==> Answer(err) == Some(Reply(400, map["error" := Str("Referenced resource not found")]))
    ensures err.code == Str(NOT_NULL) ==> Answer(err) == Some(Reply(400, map["error" := Str("Required field is missing")]))
    ensures err.code == Str(CHECK_VIOLATION) ==> Answer(err) == Some(Reply(400, map["error" := Str("Invalid field value")]))
  {
  }

  /** Token errors answer 401, whatever their code. */
  lemma TokenErrorsAnswer401(err: Thrown)
    ensures err.name == Str(JWT_ERROR) ==> Answer(err) == Some(Reply(401, map["error" := Str("Invalid token")]))
    ensures err.name == Str(TOKEN_EXPIRED) ==> Answer(err) == Some(Reply(401, map["error" := Str("Token expired")]))
  {
  }

  /** A validation error answers 400 with the list of its messages, in
      order, whatever its code; it answers nothing (the handler throws) when
      it has no `errors` or one of them is null or undefined. */
  lemma ValidationErrorListsMessages(err: Thrown)
    requires err.name == Str(VALIDATION_ERROR)
    ensures err.errors.None? ==> Answer(err).None?
    ensures err.errors.Some? ==>
      var values := err.errors.value;
      && (Answer(err).Some? <==> forall i :: 0 <= i < |values| ==> Member(values[i], "message").Some?)
      && (Answer(err).Some? ==>
            && Answer(err).value.status == 400
            && var listed := Answer(err).value.body["error"];
               listed.Arr? && |listed.items| == |values|
               && forall i :: 0 <= i < |values| ==> listed.items[i] == Member(values[i], "message").value)
  {
  }

  /** An error no check recognises answers with its own non-zero status, or
      500, and its own truthy message, or "Internal Server Error". */
  lemma UnmatchedErrorKeepsItsOwn(err: Thrown)
    requires err.name !in {Str(JWT_ERROR), Str(TOKEN_EXPIRED), Str(VALIDATION_ERROR)}
    requires err.code !in {Str(DUPLICATE_KEY), Str(FOREIGN_KEY), Str(NOT_NULL), Str(CHECK_VIOLATION)}
    ensures Answer(err).Some?
    ensures err.statusCode.Some? && err.statusCode.value != 0 ==> Answer(err).value.status == err.statusCode.value
    ensures err.statusCode.None? || err.statusCode.value == 0 ==> Answer(err).value.status == 500
    ensures Truthy(err.message) ==> Answer(err).value.body["error"] == err.message
    ensures !Truthy(err.message) ==> Answer(err).value.body["error"] == Str(FALLBACK_MESSAGE)
  {
  }

  /** Every reply has a non-zero status and a single, truthy `error` key,
      and only a ValidationError can make the handler throw. */
  lemma EveryAnswerNamesAnError(err: Thrown)
    ensures Answer(err).None? ==> err.name == Str(VALIDATION_ERROR)
    ensures Answer(err).Some? ==>
      && Answer(err).value.status != 0
      && Answer(err).value.body.Keys == {"error"} && Truthy(Answer(err).value.body["error"])
  {
  }

  /** The error `notFound` forwards: a plain Error without a status code. */
  function NotFoundError(originalUrl: string): Thrown
  {
    Thrown(Undefined, Str("Error"), Str(NOT_FOUND_PREFIX + originalUrl), None, None)
  }

  /** `notFound(req, res, next)`: sets the status to 404 and forwards the
      error to `next` (returned here) without sending anything. */
  method NotFound(originalUrl: string, res: Response) returns (forwarded: Thrown)
    modifies res
    ensures res.statusCode == 404 && res.sent == old(res.sent)
    ensures forwarded == NotFoundError(originalUrl)
  {
    res.Status(404);
    forwarded := Thrown(Undefined, Str("Error"), Str(NOT_FOUND_PREFIX + originalUrl), None, None);
  }

  /** `errorHandler` sets the status anew from the error, which has none, so
      the 404 that `notFound` set is replaced by 500. */
  lemma NotFoundAnswers500(originalUrl: string)
    ensures Answer(NotFoundError(originalUrl)) == Some(Reply(500, map["error" := Str(NOT_FOUND_PREFIX + originalUrl)]))
  {
  }

  /** The error `notFound` evidently means to forward: one carrying 404. */
  function NotFoundErrorCorrected(originalUrl: string): Thrown
  {
    Thrown(Undefined, Str("Error"), Str(NOT_FOUND_PREFIX + originalUrl), Some(404), None)
  }

  /** `notFound` with the status attached to the error it forwards. */
  method NotFoundCorrected(originalUrl: string, res: Response) returns (forwarded: Thrown)
    modifies res
    ensures res.statusCode == 404 && res.sent == old(res.sent)
    ensures forwarded == NotFoundErrorCorrected(originalUrl)
  {
    res.Status(404);
    forwarded := NotFoundErrorCorrected(originalUrl);
  }

  /** With the status attached, an unmatched route is answered with 404. */
  lemma NotFoundCorrectedAnswers404(originalUrl: string)
    ensures Answer(NotFoundErrorCorrected(originalUrl)) == Some(Reply(404, map["error" := Str(NOT_FOUND_PREFIX + originalUrl)]))
  {
  }
}
