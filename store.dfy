/** What the handlers see of the database (the result of each awaited call),
    the write each handler issues, and the reply shapes, pagination and
    actor fallback they share. */
module Store {
  import opened Js
  import opened Sql
  import opened Http

  /** What a single-row read (`findById`, `findByEmail`, `findByCode`) resolves
      to: the row, no row (`rows[0]` is undefined), or a rejected query with
      its error message. */
  datatype Lookup = Found(row: Obj) | Missing | Fails(message: string)

  /** What any other awaited call resolves to: its value, or a rejection with
      the error's message. */
  datatype Outcome<T> = Done(result: T) | Threw(message: string)

  /** The write a handler issues: the INSERT parameters of `save()`, the
      arguments of the model's `update(id, data, modified_by)`, or the id of
      `delete(id)`. */
  datatype Write =
    | NoWrite
    | Insert(values: seq<Param>)
    | Modify(id: string, data: Obj, modifiedBy: Value)
    | Remove(id: string)

  const INTERNAL_ERROR := "Internal server error"
  const FOREIGN_KEY_VIOLATION := "violates foreign key constraint"
  const INVALID_REFERENCE := "Invalid reference to another resource"

  /** `res.status(status).json({ error: message })` */
  function ErrorReply(status: int, message: string): Reply
  {
    Reply(status, map["error" := Str(message)])
  }

  /** `res.status(status).json({ message })` */
  function MessageReply(status: int, message: string): Reply
  {
    Reply(status, map["message" := Str(message)])
  }

  /** `{ success: false, message }`, the not-found shape of the handlers
      that report `success`. */
  function Failure(status: int, message: string): Reply
  {
    Reply(status, map["success" := Bool(false), "message" := Str(message)])
  }

  /** The catch of the handlers that report `success`: 500 with the error's message. */
  function Crash(errorMessage: string): Reply
  {
    Reply(500, map["success" := Bool(false), "message" := Str(INTERNAL_ERROR), "error" := Str(errorMessage)])
  }

  /** `{ success: true, message, data }` */
  function Succeeded(status: int, message: string, data: Value): Reply
  {
    Reply(status, map["success" := Bool(true), "message" := Str(message), "data" := data])
  }

  /** `{ success: true, message }`, the reply of the handlers that delete. */
  function Acknowledged(message: string): Reply
  {
    Reply(200, map["success" := Bool(true), "message" := Str(message)])
  }

  /** `{ success: true, data }` */
  function Fetched(data: Value): Reply
  {
    Reply(200, map["success" := Bool(true), "data" := data])
  }

  /** `{ success: true, data: rows, pagination }`, the list reply of the
      handlers that report `success`. */
  function Listed(rows: seq<Value>, pagination: Value): Reply
  {
    Reply(200, map["success" := Bool(true), "data" := Arr(rows), "pagination" := pagination])
  }

  /** `data` was filled from `body` by `if (body.k) data.k = body.k` for each
      key of `truthy` and `if (body.k !== undefined) data.k = body.k` for each
      key of `defined`, starting from `{}`: it holds exactly those keys whose
      test passed, with the body's values. */
  ghost predicate CopiedFrom(data: Obj, body: Obj, truthy: set<string>, defined: set<string>)
  {
    && (forall k :: k in data ==> (k in truthy || k in defined) && data[k] == Get(body, k))
    && (forall k :: k in truthy ==> (k in data <==> Truthy(Get(body, k))))
    && (forall k :: k in defined ==> (k in data <==> Get(body, k) != Undefined))
  }

  /** One `if (body.key) data.key = body.key` step of filling an object. */
  method CopyWhenTruthy(data: Obj, body: Obj, key: string, ghost truthy: set<string>, ghost defined: set<string>)
    returns (next: Obj)
    requires key !in truthy && key !in defined
    requires CopiedFrom(data, body, truthy, defined)
    ensures CopiedFrom(next, body, truthy + {key}, defined)
  {
    next := data;
    if Truthy(Get(body, key)) {
      next := next[key := Get(body, key)];
    }
  }

  /** One `if (body.key !== undefined) data.key = body.key` step. */
  method CopyWhenDefined(data: Obj, body: Obj, key: string, ghost truthy: set<string>, ghost defined: set<string>)
    returns (next: Obj)
    requires key !in truthy && key !in defined
    requires CopiedFrom(data, body, truthy, defined)
    ensures CopiedFrom(next, body, truthy, defined + {key})
  {
    next := data;
    if Get(body, key) != Undefined {
      next := next[key := Get(body, key)];
    }
  }

  /** The catch of the container and student delete handlers: a foreign-key
      violation becomes 400, anything else 500. */
  function DeleteFailure(errorMessage: string): (r: Reply)
    ensures Includes(errorMessage, FOREIGN_KEY_VIOLATION) ==> r == ErrorReply(400, INVALID_REFERENCE)
    ensures !Includes(errorMessage, FOREIGN_KEY_VIOLATION) ==> r == ErrorReply(500, INTERNAL_ERROR)
  {
    if Includes(errorMessage, FOREIGN_KEY_VIOLATION) then ErrorReply(400, INVALID_REFERENCE)
    else ErrorReply(500, INTERNAL_ERROR)
  }

  /** Any message that contains the constraint text, wherever it occurs, is
      mapped to 400; a message without it to 500. */
  lemma {:induction false} DeleteFailureStatus(prefix: string, suffix: string, other: string)
    requires forall i :: !OccursAt(other, FOREIGN_KEY_VIOLATION, i)
    ensures DeleteFailure(prefix + FOREIGN_KEY_VIOLATION + suffix).status == 400
    ensures DeleteFailure(other).status == 500
  {
    var m := prefix + FOREIGN_KEY_VIOLATION + suffix;
    assert m[|prefix|..|prefix| + |FOREIGN_KEY_VIOLATION|] == FOREIGN_KEY_VIOLATION;
    assert OccursAt(m, FOREIGN_KEY_VIOLATION, |prefix|);
    IncludesIff(m, FOREIGN_KEY_VIOLATION);
    IncludesIff(other, FOREIGN_KEY_VIOLATION);
  }

  // ------------------------------------------------------------ the actor

  /** `req.user?.id || fallback`: the authenticated user's id when it is
      truthy, the fallback otherwise. */
  function Actor(user: Option<Obj>, fallback: Value): (r: Value)
    ensures user.Some? && Truthy(Get(user.value, "id")) ==> r == Get(user.value, "id")
    ensures user.None? || !Truthy(Get(user.value, "id")) ==> r == fallback
  {
    Or(OptionalId(user), fallback)
  }

  // ------------------------------------------------------------ pagination

  const MAX_LIMIT := 100

  /** `parseInt(v)` of a query parameter given a default by destructuring:
      None stands for an absent (undefined) parameter. */
  function QueryInt(v: Option<int>, default: int): (r: int)
    ensures v.None? ==> r == default
    ensures v.Some? ==> r == v.value
  {
    if v.Some? then v.value else default
  }

  /** `Math.min(limit, 100)` */
  function ClampLimit(limit: int): (r: int)
    ensures r <= MAX_LIMIT
    ensures limit <= MAX_LIMIT ==> r == limit
    ensures limit > MAX_LIMIT ==> r == MAX_LIMIT
  {
    if limit < MAX_LIMIT then limit else MAX_LIMIT
  }

  /** `{ total, limit, offset, hasMore: offset + limit < total }` */
  function Pagination(total: int, limit: int, offset: int): (p: Value)
    ensures p.Object? && p.fields.Keys == {"total", "limit", "offset", "hasMore"}
    ensures p.fields["hasMore"] == Bool(offset + limit < total)
    ensures p.fields["total"] == Num(total) && p.fields["limit"] == Num(limit) && p.fields["offset"] == Num(offset)
  {
    Object(map["total" := Num(total), "limit" := Num(limit), "offset" := Num(offset), "hasMore" := Bool(offset + limit < total)])
  }

  /** The rows `LIMIT limit OFFSET offset` returns from an ordered result. */
  function PageOf<T>(rows: seq<T>, limit: nat, offset: nat): (page: seq<T>)
    ensures |page| <= limit
    ensures offset + limit <= |rows| ==> |page| == limit
  {
    if offset >= |rows| then []
    else if offset + limit >= |rows| then rows[offset..]
    else rows[offset..offset + limit]
  }

  /** `hasMore` holds exactly when some row of the result lies after the
      returned page, so a client that stops at the first `hasMore: false`
      has seen the whole result. */
  lemma HasMoreIffRowsAfterPage<T>(rows: seq<T>, limit: nat, offset: nat)
    ensures var p := Pagination(|rows|, limit, offset);
      p.fields["hasMore"] == Bool(offset + |PageOf(rows, limit, offset)| < |rows|)
  {
    var page := PageOf(rows, limit, offset);
    if offset + limit < |rows| {
      assert |page| == limit;
    } else if offset < |rows| {
      assert |page| == |rows| - offset;
    }
  }
}
