/** The student handlers: the reply each sends and the statement or write it
    issues, given what every awaited call resolves to. */
module StudentController {
  import opened Js
  import opened Sql
  import opened Http
  import opened Store
  import opened StudentModel

  const DEFAULT_LIMIT := 10
  const NOT_FOUND := "Student not found"
  const CREATED := "Student created successfully"
  const UPDATED := "Student updated successfully"
  const DELETED := "Student deleted successfully"

  /** `getAll`: the limit defaults to 10 and is capped at 100, the name
      defaults to null, and the same name goes to the page query and to the
      count. */
  method GetAll(limit: Option<int>, offset: Option<int>, fullName: Value, rows: Outcome<seq<Value>>, total: Outcome<int>)
    returns (reply: Reply, page: SelectStatement, count: SelectStatement)
    ensures var l, o := ClampLimit(QueryInt(limit, DEFAULT_LIMIT)), QueryInt(offset, 0);
      var name := if fullName == Undefined then Null else fullName;
      && l <= MAX_LIMIT
      && (limit.None? ==> l == DEFAULT_LIMIT)
      && page == PageSpec(NAME_FILTER, NameSearch(name), l, o)
      && count == CountSpec(NAME_FILTER, NameSearch(name))
      && (rows.Done? && total.Done? ==>
            reply == Reply(200, map["data" := Object(map["students" := Arr(rows.result),
                                                         "pagination" := Pagination(total.result, l, o)])]))
      && (rows.Threw? || total.Threw? ==> reply == ErrorReply(500, INTERNAL_ERROR))
  {
    var name := if fullName == Undefined then Null else fullName;
    var parsedLimit := ClampLimit(QueryInt(limit, DEFAULT_LIMIT));
    var parsedOffset := QueryInt(offset, 0);
    page := Student.FindAll(parsedLimit, parsedOffset, name);
    count := Student.Count(name);
    if rows.Threw? || total.Threw? {
      return ErrorReply(500, INTERNAL_ERROR), page, count;
    }
    var pagination := Pagination(total.result, parsedLimit, parsedOffset);
    reply := Reply(200, map["data" := Object(map["students" := Arr(rows.result), "pagination" := pagination])]);
  }

  /** The total counts the rows the page is drawn from: the count has the
      page query's conditions and parameters, without LIMIT and OFFSET. */
  lemma CountMatchesPage(fullName: Value, limit: int, offset: int)
    ensures var page, count := PageSpec(NAME_FILTER, NameSearch(fullName), limit, offset), CountSpec(NAME_FILTER, NameSearch(fullName));
      && count.conditions == page.conditions
      && page.params == count.params + [Bind(Num(limit)), Bind(Num(offset))]
  {
    NameFilterFold(NameSearch(fullName));
  }

  /** `create`: the new row's author is the caller, else (through the
      constructor's default) the row's own id; the reply is 201. */
  method Create(body: Obj, user: Option<Obj>, freshId: string, saved: Outcome<Value>)
    returns (reply: Reply, write: Write)
    requires freshId != ""
    ensures var author := if user.Some? && Truthy(Get(user.value, "id")) then Get(user.value, "id") else Str(freshId);
      write == Insert([Bind(Str(freshId)), Bind(Get(body, "full_name")), Bind(author), Bind(author)])
    ensures saved.Done? ==> reply == MessageReply(201, CREATED)
    ensures saved.Threw? ==> reply == ErrorReply(500, INTERNAL_ERROR)
  {
    var studentData := map["full_name" := Get(body, "full_name"), "created_by" := Actor(user, Null), "modified_by" := Actor(user, Null)];
    var newStudent := new Student(studentData, freshId);
    var values := newStudent.Save();
    write := Insert(values);
    reply := if saved.Done? then MessageReply(201, CREATED) else ErrorReply(500, INTERNAL_ERROR);
  }

  /** `update`: 404 when missing, before any write; the model gets only the
      name, when truthy, and the caller or else the row's last author. */
  method Update(id: string, body: Obj, user: Option<Obj>, existing: Lookup, updated: Outcome<Value>)
    returns (reply: Reply, write: Write)
    ensures existing.Fails? ==> reply == ErrorReply(500, INTERNAL_ERROR) && write == NoWrite
    ensures existing.Missing? ==> reply == ErrorReply(404, NOT_FOUND) && write == NoWrite
    ensures existing.Found? ==>
      && write.Modify? && write.id == id
      && CopiedFrom(write.data, body, {"full_name"}, {})
      && write.modifiedBy == Actor(user, Get(existing.row, "modified_by"))
      && reply == (if updated.Done? then MessageReply(200, UPDATED) else ErrorReply(500, INTERNAL_ERROR))
  {
    if existing.Fails? {
      return ErrorReply(500, INTERNAL_ERROR), NoWrite;
    }
    if existing.Missing? {
      return ErrorReply(404, NOT_FOUND), NoWrite;
    }
    var updateData: Obj := map[];
    if Truthy(Get(body, "full_name")) {
      updateData := updateData["full_name" := Get(body, "full_name")];
    }
    write := Modify(id, updateData, Actor(user, Get(existing.row, "modified_by")));
    reply := if updated.Done? then MessageReply(200, UPDATED) else ErrorReply(500, INTERNAL_ERROR);
  }

  /** `delete`: 404 when missing, before any deletion; every rejection goes
      through the foreign-key mapping. */
  method Delete(id: string, existing: Lookup, deleted: Outcome<Value>)
    returns (reply: Reply, write: Write)
    ensures existing.Fails? ==> reply == DeleteFailure(existing.message) && write == NoWrite
    ensures existing.Missing? ==> reply == ErrorReply(404, NOT_FOUND) && write == NoWrite
    ensures existing.Found? ==> write == Remove(id)
    ensures existing.Found? && deleted.Done? ==> reply == MessageReply(200, DELETED)
    ensures existing.Found? && deleted.Threw? ==> reply == DeleteFailure(deleted.message)
  {
    if existing.Fails? {
      return DeleteFailure(existing.message), NoWrite;
    }
    if existing.Missing? {
      return ErrorReply(404, NOT_FOUND), NoWrite;
    }
    write := Remove(id);
    if deleted.Threw? {
      return DeleteFailure(deleted.message), write;
    }
    reply := MessageReply(200, DELETED);
  }

  /** The update a request makes reaches the table as: full_name when
      truthy, then `modified_by` and `modified_at`. */
  lemma UpdateStatementOfRequest(id: string, body: Obj, data: Obj, modifiedBy: Value)
    requires CopiedFrom(data, body, {"full_name"}, {})
    ensures var st := UpdateSpec(UPDATE_RULES, data, modifiedBy, id);
      && WellNumbered(st)
      && (Assigns(st, "full_name") <==> Truthy(Get(body, "full_name")))
      && st.values[|st.values| - 2] == Bind(modifiedBy)
  {
    UpdateWritesGivenFields(data, modifiedBy, id);
    if "full_name" in data {
      assert Get(data, "full_name") == Get(body, "full_name");
    } else {
      assert Get(data, "full_name") == Undefined;
    }
  }
}
