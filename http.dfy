/** The parts of Express's request and response objects the core touches. */
module Http {
  import opened Js

  /** A response as sent: status code and JSON body. */
  datatype Reply = Reply(status: int, body: Obj)

  /** The incoming request: the Authorization header, the user a middleware
      attaches, and the parsed query object. */
  class Request {
    var authorization: Option<string>
    var user: Option<Obj>
    var query: Obj

    constructor(authorization: Option<string>, query: Obj)
      ensures this.authorization == authorization && this.user == None && this.query == query
    {
      this.authorization := authorization;
      this.user := None;
      this.query := query;
    }
  }

  /** The outgoing response: the status set so far and the body once sent. */
  class Response {
    var statusCode: int
    var sent: Option<Reply>

    /** Express starts every response at status 200 with nothing sent. */
    constructor()
      ensures statusCode == 200 && sent == None
    {
      statusCode := 200;
      sent := None;
    }

    /** `res.status(code)` */
    method Status(code: int)
      modifies this
      ensures statusCode == code && sent == old(sent)
    {
      statusCode := code;
    }

    /** `res.json(body)`: sends the body with the current status. */
    method Json(body: Obj)
      modifies this
      ensures statusCode == old(statusCode)
      ensures sent == Some(Reply(old(statusCode), body))
    {
      sent := Some(Reply(statusCode, body));
    }

    /** `res.status(code).json(body)` */
    method Send(code: int, body: Obj)
      modifies this
      ensures statusCode == code && sent == Some(Reply(code, body))
    {
      Status(code);
      Json(body);
    }
  }
}
