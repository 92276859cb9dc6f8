/** The standard success and error response helpers. */
module Responses {
  import opened Js
  import opened Http

  const INTERNAL_SERVER_ERROR := "Internal Server Error"

  /** A parameter left out (undefined) takes its default `null`. */
  function Defaulted(v: Value): Value
  {
    if v == Undefined then Null else v
  }

  /** The body `sendSuccess` builds: `data` and `message` only when they are
      not null (an omitted argument defaults to null). */
  function SuccessBody(data: Value, message: Value): (response: Obj)
    ensures "data" in response <==> data != Null && data != Undefined
    ensures "message" in response <==> message != Null && message != Undefined
    ensures "data" in response ==> response["data"] == data
    ensures "message" in response ==> response["message"] == message
    ensures response.Keys <= {"data", "message"}
  {
    var d, m := Defaulted(data), Defaulted(message);
    (if d != Null then map["data" := d] else map[]) + (if m != Null then map["message" := m] else map[])
  }

  /** `sendSuccess(res, data, message, statusCode = 200)` */
  method SendSuccess(res: Response, data: Value, message: Value, statusCode: Option<int>)
    modifies res
    ensures res.sent.Some? && res.sent.value.status == (if statusCode.Some? then statusCode.value else 200)
    ensures "data" in res.sent.value.body <==> data != Null && data != Undefined
    ensures "message" in res.sent.value.body <==> message != Null && message != Undefined
    ensures res.sent == Some(Reply(res.sent.value.status, SuccessBody(data, message)))
  {
    var response := SuccessBody(data, message);
    var code := if statusCode.Some? then statusCode.value else 200;
    res.Send(code, response);
  }

  /** The `error` field of `sendError`: a string is used verbatim, otherwise
      `error.message`, falling back to "Internal Server Error" when that is
      falsy. None: reading `.message` of null or undefined throws. */
  function ErrorField(error: Value): (r: Option<Value>)
    ensures error.Str? ==> r == Some(error)
    ensures error == Null || error == Undefined ==> r.None?
    ensures error.Object? && Truthy(Get(error.fields, "message")) ==> r == Some(Get(error.fields, "message"))
    ensures error.Object? && !Truthy(Get(error.fields, "message")) ==> r == Some(Str(INTERNAL_SERVER_ERROR))
    ensures !error.Str? && !error.Object? && r.Some? ==> r == Some(Str(INTERNAL_SERVER_ERROR))
  {
    if error.Str? then Some(error)
    else match Member(error, "message")
      case None => None
      case Some(m) => Some(Or(m, Str(INTERNAL_SERVER_ERROR)))
  }

  /** `sendError(res, error, statusCode = 500)`. `res.status(...)` runs before
      the body is evaluated, so when the error value is null or undefined the
      status is set, the body throws (`threw`) and nothing is sent. */
  method SendError(res: Response, error: Value, statusCode: Option<int>) returns (threw: bool)
    modifies res
    ensures res.statusCode == (if statusCode.Some? then statusCode.value else 500)
    ensures threw <==> ErrorField(error).None?
    ensures threw ==> res.sent == old(res.sent)
    ensures !threw ==> res.sent == Some(Reply(res.statusCode, map["error" := ErrorField(error).value]))
  {
    res.Status(if statusCode.Some? then statusCode.value else 500);
    var field := ErrorField(error);
    if field.None? {
      return true;
    }
    threw := false;
    res.Json(map["error" := field.value]);
  }
}
