/** The container handlers. Each takes the request's fields and what every
    awaited call resolves to, and returns the reply it sends and the write
    it issues. */
module ContainerController {
  import opened Js
  import opened Sql
  import opened Http
  import opened Store
  import opened ContainerModel

  const DEFAULT_LIMIT := 10
  const NOT_FOUND := "Container not found"
  const CODE_TAKEN := "Container with this code already exists"
  const CREATED := "Container created successfully"
  const UPDATED := "Container updated successfully"
  const DELETED := "Container deleted successfully"

  /** `getAll`: the limit defaults to 10 and is capped at 100, the offset
      defaults to 0; `page` is the statement `findAll` runs. */
  method GetAll(limit: Option<int>, offset: Option<int>, rows: Outcome<seq<Value>>, total: Outcome<int>)
    returns (reply: Reply, page: SelectStatement)
    ensures var l, o := ClampLimit(QueryInt(limit, DEFAULT_LIMIT)), QueryInt(offset, 0);
      && l <= MAX_LIMIT
      && (limit.None? ==> l == DEFAULT_LIMIT)
      && page == PageSpec([], map[], l, o)
      && (rows.Done? && total.Done? ==>
            reply == Reply(200, map["data" := Object(map["containers" := Arr(rows.result),
                                                         "pagination" := Pagination(total.result, l, o)])]))
      && (rows.Threw? || total.Threw? ==> reply == ErrorReply(500, INTERNAL_ERROR))
  {
    var parsedLimit := ClampLimit(QueryInt(limit, DEFAULT_LIMIT));
    var parsedOffset := QueryInt(offset, 0);
    page := Container.FindAll(parsedLimit, parsedOffset);
    if rows.Threw? || total.Threw? {
      return ErrorReply(500, INTERNAL_ERROR), page;
    }
    var pagination := Pagination(total.result, parsedLimit, parsedOffset);
    reply := Reply(200, map["data" := Object(map["containers" := Arr(rows.result), "pagination" := pagination])]);
  }

  /** `create`: an existing code is refused before anything is written;
      otherwise the new row is inserted with the caller as its author,
      falling back (through the constructor's default) to the row's own id. */
  method Create(body: Obj, user: Option<Obj>, byCode: Lookup, freshId: string, saved: Outcome<Value>)
    returns (reply: Reply, write: Write)
    requires freshId != ""
    ensures byCode.Found? ==> reply == ErrorReply(400, CODE_TAKEN) && write == NoWrite
    ensures byCode.Fails? ==> reply == ErrorReply(500, INTERNAL_ERROR) && write == NoWrite
    ensures byCode.Missing? ==>
      var author := if user.Some? && Truthy(Get(user.value, "id")) then Get(user.value, "id") else Str(freshId);
      && write == Insert([Bind(Str(freshId)), Bind(Get(body, "code")), Bind(author), Bind(author)])
      && reply == (if saved.Done? then MessageReply(201, CREATED) else ErrorReply(500, INTERNAL_ERROR))
  {
    if byCode.Fails? {
      return ErrorReply(500, INTERNAL_ERROR), NoWrite;
    }
    if byCode.Found? {
      return ErrorReply(400, CODE_TAKEN), NoWrite;
    }
    var containerData := map["code" := Get(body, "code"), "created_by" := Actor(user, Null), "modified_by" := Actor(user, Null)];
    var container := new Container(containerData, freshId);
    var values := container.Save();
    write := Insert(values);
    reply := if saved.Done? then MessageReply(201, CREATED) else ErrorReply(500, INTERNAL_ERROR);
  }

  /** `update`: 404 when the container is missing; the uniqueness lookup
      runs (`checkedCode`) only for a truthy code that differs from the
      current one, and a hit is refused; the model gets only the code, when
      truthy, and the caller or else the row's last author. */
  method Update(id: string, body: Obj, user: Option<Obj>, existing: Lookup, byCode: Lookup, updated: Outcome<Value>)
    returns (reply: Reply, write: Write, checkedCode: bool)
    ensures existing.Fails? ==> reply == ErrorReply(500, INTERNAL_ERROR) && write == NoWrite && !checkedCode
    ensures existing.Missing? ==> reply == ErrorReply(404, NOT_FOUND) && write == NoWrite && !checkedCode
    ensures existing.Found? ==>
      var code := Get(body, "code");
      && (checkedCode <==> Truthy(code) && code != Get(existing.row, "code"))
      && (checkedCode && byCode.Found? ==> reply == ErrorReply(400, CODE_TAKEN) && write == NoWrite)
      && (checkedCode && byCode.Fails? ==> reply == ErrorReply(500, INTERNAL_ERROR) && write == NoWrite)
      && (!checkedCode || byCode.Missing? ==>
            && write.Modify? && write.id == id
            && CopiedFrom(write.data, body, {"code"}, {})
            && write.modifiedBy == Actor(user, Get(existing.row, "modified_by"))
            && reply == (if updated.Done? then MessageReply(200, UPDATED) else ErrorReply(500, INTERNAL_ERROR)))
  {
    checkedCode := false;
    if existing.Fails? {
      return ErrorReply(500, INTERNAL_ERROR), NoWrite, checkedCode;
    }
    if existing.Missing? {
      return ErrorReply(404, NOT_FOUND), NoWrite, checkedCode;
    }
    var code := Get(body, "code");
    if Truthy(code) && code != Get(existing.row, "code") {
      checkedCode := true;
      if byCode.Fails? {
        return ErrorReply(500, INTERNAL_ERROR), NoWrite, checkedCode;
      }
      if byCode.Found? {
        return ErrorReply(400, CODE_TAKEN), NoWrite, checkedCode;
      }
    }
    var updateData: Obj := map[];
    if Truthy(code) {
      updateData := updateData["code" := code];
    }
    write := Modify(id, updateData, Actor(user, Get(existing.row, "modified_by")));
    reply := if updated.Done? then MessageReply(200, UPDATED) else ErrorReply(500, INTERNAL_ERROR);
  }

  /** `delete`: 404 when missing, before any deletion; every rejection,
      including the lookup's, is answered through the foreign-key mapping. */
  method Delete(id: string, existing: Lookup, deleted: Outcome<Value>)
    returns (reply: Reply, write: Write)
    ensures existing.Fails? ==> reply == DeleteFailure(existing.message) && write == NoWrite
    ensures existing.Missing? ==> reply == ErrorReply(404, NOT_FOUND) && write == NoWrite
    ensures existing.Found? ==> write == Remove(id)
    ensures existing.Found? && deleted.Done? ==> reply == MessageReply(200, DELETED)
    ensures existing.Found? && deleted.Threw? ==> reply == DeleteFailure(deleted.message)
  {
    if existing.Fails? {
      return DeleteFailure(existing.message), NoWrite;
    }
    if existing.Missing? {
      return ErrorReply(404, NOT_FOUND), NoWrite;
    }
    write := Remove(id);
    if deleted.Threw? {
      return DeleteFailure(deleted.message), write;
    }
    reply := MessageReply(200, DELETED);
  }

  /** The update a request makes reaches the table as: code when truthy and
      free, then `modified_by` and `modified_at`, the id bound last. */
  lemma UpdateStatementOfRequest(id: string, body: Obj, data: Obj, modifiedBy: Value)
    requires CopiedFrom(data, body, {"code"}, {})
    ensures var st := UpdateSpec(UPDATE_RULES, data, modifiedBy, id);
      && WellNumbered(st)
      && (Assigns(st, "code") <==> Truthy(Get(body, "code")))
      && st.values[|st.values| - 2] == Bind(modifiedBy)
  {
    UpdateWritesGivenFields(data, modifiedBy, id);
    assert "code" in data <==> Truthy(Get(body, "code"));
    if "code" in data {
      assert Get(data, "code") == Get(body, "code");
    } else {
      assert Get(data, "code") == Undefined;
    }
  }
}
