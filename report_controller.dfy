/** The report handlers: the reply each sends and the statement or write it
    issues, given what every awaited call resolves to. The handlers read the
    student of a report from `user_id`, while the model and the request
    validator know it as `student_id`; each handler that does so comes with
    a corrected twin that reads `student_id`. */
module ReportController {
  import opened Js
  import opened Sql
  import opened Http
  import opened Store
  import opened ReportModel

  const DEFAULT_LIMIT := 50
  const NOT_FOUND := "Report not found"
  const CREATED := "Report created successfully"
  const UPDATED := "Report updated successfully"
  const DELETED := "Report deleted successfully"

  /** `getAll` as written: the filters object holds the truthy user_id and
      container_id of the query. */
  method GetAll(query: Obj, limit: Option<int>, offset: Option<int>, rows: Outcome<seq<Value>>, total: Outcome<int>)
    returns (reply: Reply, filters: Obj, page: SelectStatement, count: SelectStatement)
    ensures CopiedFrom(filters, query, {"user_id", "container_id"}, {})
    ensures var l, o := QueryInt(limit, DEFAULT_LIMIT), QueryInt(offset, 0);
      && page == PageSpec(FILTERS, filters, l, o)
      && count == CountSpec(FILTERS, filters)
      && (rows.Done? && total.Done? ==> reply == Listed(rows.result, Pagination(total.result, l, o)))
    ensures rows.Threw? ==> reply == Crash(rows.message)
    ensures rows.Done? && total.Threw? ==> reply == Crash(total.message)
  {
    var parsedLimit := QueryInt(limit, DEFAULT_LIMIT);
    var parsedOffset := QueryInt(offset, 0);
    filters := map[];
    filters := CopyWhenTruthy(filters, query, "user_id", {}, {});
    filters := CopyWhenTruthy(filters, query, "container_id", {"user_id"}, {});
    page := Report.FindAll(parsedLimit, parsedOffset, filters);
    count := Report.Count(filters);
    if rows.Threw? {
      return Crash(rows.message), filters, page, count;
    }
    if total.Threw? {
      return Crash(total.message), filters, page, count;
    }
    reply := Listed(rows.result, Pagination(total.result, parsedLimit, parsedOffset));
  }

  /** As written, no request can filter reports by student: the only
      condition the page query can carry is the container's. */
  lemma GetAllNeverFiltersByStudent(query: Obj, filters: Obj, limit: int, offset: int)
    requires CopiedFrom(filters, query, {"user_id", "container_id"}, {})
    ensures PageSpec(FILTERS, filters, limit, offset).conditions ==
      (if Truthy(Get(query, "container_id")) then [Condition("container_id", Equals, 1)] else [])
  {
    FiltersFold(filters);
    assert "student_id" !in filters;
    assert "container_id" in filters <==> Truthy(Get(query, "container_id"));
  }

  /** `getAll` reading the student from `student_id`, as the model filters. */
  method GetAllCorrected(query: Obj, limit: Option<int>, offset: Option<int>, rows: Outcome<seq<Value>>, total: Outcome<int>)
    returns (reply: Reply, filters: Obj, page: SelectStatement, count: SelectStatement)
    ensures CopiedFrom(filters, query, {"student_id", "container_id"}, {})
    ensures var l, o := QueryInt(limit, DEFAULT_LIMIT), QueryInt(offset, 0);
      && page == PageSpec(FILTERS, filters, l, o)
      && count == CountSpec(FILTERS, filters)
      && (rows.Done? && total.Done? ==> reply == Listed(rows.result, Pagination(total.result, l, o)))
    ensures rows.Threw? ==> reply == Crash(rows.message)
    ensures rows.Done? && total.Threw? ==> reply == Crash(total.message)
  {
    var parsedLimit := QueryInt(limit, DEFAULT_LIMIT);
    var parsedOffset := QueryInt(offset, 0);
    filters := map[];
    filters := CopyWhenTruthy(filters, query, "student_id", {}, {});
    filters := CopyWhenTruthy(filters, query, "container_id", {"student_id"}, {});
    page := Report.FindAll(parsedLimit, parsedOffset, filters);
    count := Report.Count(filters);
    if rows.Threw? {
      return Crash(rows.message), filters, page, count;
    }
    if total.Threw? {
      return Crash(total.message), filters, page, count;
    }
    reply := Listed(rows.result, Pagination(total.result, parsedLimit, parsedOffset));
  }

  /** Corrected, a truthy student in the query is the first condition, at $1. */
  lemma GetAllCorrectedFiltersByStudent(query: Obj, filters: Obj, limit: int, offset: int)
    requires CopiedFrom(filters, query, {"student_id", "container_id"}, {})
    ensures var st := PageSpec(FILTERS, filters, limit, offset);
      Truthy(Get(query, "student_id")) ==>
        |st.conditions| >= 1 && st.conditions[0] == Condition("student_id", Equals, 1) && st.params[0] == Bind(Get(query, "student_id"))
  {
    FiltersFold(filters);
    assert "student_id" in filters <==> Truthy(Get(query, "student_id"));
  }

  /** `create` as written: the report data carries `user_id`, which the
      constructor does not read, so the student column of every new report
      is bound to undefined, whatever the request holds. */
  method Create(body: Obj, user: Option<Obj>, freshId: string, saved: Outcome<Value>)
    returns (reply: Reply, write: Write)
    requires freshId != ""
    ensures var author :=
        if user.Some? && Truthy(Get(user.value, "id")) then Get(user.value, "id")
        else if Truthy(Get(body, "user_id")) then Get(body, "user_id")
        else Str(freshId);
      write == Insert([Bind(Str(freshId)), Bind(Undefined), Bind(Get(body, "container_id")), Bind(Undefined),
                       Bind(Get(body, "notes")), Bind(author), Bind(author)])
    ensures write.values[1] == Bind(Undefined)
    ensures saved.Done? ==> reply == Succeeded(201, CREATED, saved.result)
    ensures saved.Threw? ==> reply == Crash(saved.message)
  {
    var author := Actor(user, Get(body, "user_id"));
    var reportData := map[
      "user_id" := Get(body, "user_id"),
      "container_id" := Get(body, "container_id"),
      "notes" := Get(body, "notes"),
      "created_by" := author,
      "modified_by" := author
    ];
    var report := new Report(reportData, freshId);
    assert report.id == Str(freshId) && report.sensorDataId == Undefined;
    assert report.containerId == Get(body, "container_id") && report.notes == Get(body, "notes");
    assert report.createdBy == Or(author, Str(freshId)) && report.modifiedBy == Or(author, Str(freshId));
    var values := report.Save();
    write := Insert(values);
    reply := if saved.Done? then Succeeded(201, CREATED, saved.result) else Crash(saved.message);
  }

  /** `create` also passing the body's `student_id` on, as the constructor
      reads it: the new report stores the requested student. */
  method CreateCorrected(body: Obj, user: Option<Obj>, freshId: string, saved: Outcome<Value>)
    returns (reply: Reply, write: Write)
    requires freshId != ""
    ensures var author :=
        if user.Some? && Truthy(Get(user.value, "id")) then Get(user.value, "id")
        else if Truthy(Get(body, "user_id")) then Get(body, "user_id")
        else Str(freshId);
      write == Insert([Bind(Str(freshId)), Bind(Get(body, "student_id")), Bind(Get(body, "container_id")), Bind(Undefined),
                       Bind(Get(body, "notes")), Bind(author), Bind(author)])
    ensures write.values[1] == Bind(Get(body, "student_id"))
    ensures saved.Done? ==> reply == Succeeded(201, CREATED, saved.result)
    ensures saved.Threw? ==> reply == Crash(saved.message)
  {
    var author := Actor(user, Get(body, "user_id"));
    var reportData := map[
      "student_id" := Get(body, "student_id"),
      "user_id" := Get(body, "user_id"),
      "container_id" := Get(body, "container_id"),
      "notes" := Get(body, "notes"),
      "created_by" := author,
      "modified_by" := author
    ];
    var report := new Report(reportData, freshId);
    assert report.id == Str(freshId) && report.sensorDataId == Undefined;
    assert report.containerId == Get(body, "container_id") && report.notes == Get(body, "notes");
    assert report.createdBy == Or(author, Str(freshId)) && report.modifiedBy == Or(author, Str(freshId));
    var values := report.Save();
    write := Insert(values);
    reply := if saved.Done? then Succeeded(201, CREATED, saved.result) else Crash(saved.message);
  }

  /** `update` as written: 404 when missing, before any write; user_id and
      container_id are copied when truthy, notes whenever not undefined. */
  method Update(id: string, body: Obj, user: Option<Obj>, existing: Lookup, updated: Outcome<Value>)
    returns (reply: Reply, write: Write)
    ensures existing.Fails? ==> reply == Crash(existing.message) && write == NoWrite
    ensures existing.Missing? ==> reply == Failure(404, NOT_FOUND) && write == NoWrite
    ensures existing.Found? ==>
      && write.Modify? && write.id == id
      && CopiedFrom(write.data, body, {"user_id", "container_id"}, {"notes"})
      && write.modifiedBy == Actor(user, Get(existing.row, "modified_by"))
      && reply == (if updated.Done? then Succeeded(200, UPDATED, updated.result) else Crash(updated.message))
  {
    if existing.Fails? {
      return Crash(existing.message), NoWrite;
    }
    if existing.Missing? {
      return Failure(404, NOT_FOUND), NoWrite;
    }
    var updateData: Obj := map[];
    updateData := CopyWhenTruthy(updateData, body, "user_id", {}, {});
    updateData := CopyWhenTruthy(updateData, body, "container_id", {"user_id"}, {});
    updateData := CopyWhenDefined(updateData, body, "notes", {"user_id", "container_id"}, {});
    write := Modify(id, updateData, Actor(user, Get(existing.row, "modified_by")));
    reply := if updated.Done? then Succeeded(200, UPDATED, updated.result) else Crash(updated.message);
  }

  /** As written, an update never changes a report's student: the copied
      user_id is no column of the statement and student_id is never copied;
      the notes are written whenever given, the empty string included. */
  lemma UpdateNeverChangesStudent(id: string, body: Obj, data: Obj, modifiedBy: Value)
    requires CopiedFrom(data, body, {"user_id", "container_id"}, {"notes"})
    ensures var st := UpdateSpec(UPDATE_RULES, data, modifiedBy, id);
      && !Assigns(st, "student_id")
      && !Assigns(st, "user_id")
      && (Assigns(st, "container_id") <==> Truthy(Get(body, "container_id")))
      && (Assigns(st, "notes") <==> Get(body, "notes") != Undefined)
  {
    UpdateWritesGivenFields(data, modifiedBy, id);
    assert "student_id" !in data;
    if "container_id" in data { assert Get(data, "container_id") == Get(body, "container_id"); }
    if "notes" in data { assert Get(data, "notes") == Get(body, "notes"); }
    UpdateSpecAssignsOnlyRuleColumns(UPDATE_RULES, data, modifiedBy, id, "user_id");
  }

  /** `update` copying `student_id`, the field the model writes. */
  method UpdateCorrected(id: string, body: Obj, user: Option<Obj>, existing: Lookup, updated: Outcome<Value>)
    returns (reply: Reply, write: Write)
    ensures existing.Fails? ==> reply == Crash(existing.message) && write == NoWrite
    ensures existing.Missing? ==> reply == Failure(404, NOT_FOUND) && write == NoWrite
    ensures existing.Found? ==>
      && write.Modify? && write.id == id
      && CopiedFrom(write.data, body, {"student_id", "container_id"}, {"notes"})
      && write.modifiedBy == Actor(user, Get(existing.row, "modified_by"))
      && reply == (if updated.Done? then Succeeded(200, UPDATED, updated.result) else Crash(updated.message))
  {
    if existing.Fails? {
      return Crash(existing.message), NoWrite;
    }
    if existing.Missing? {
      return Failure(404, NOT_FOUND), NoWrite;
    }
    var updateData: Obj := map[];
    updateData := CopyWhenTruthy(updateData, body, "student_id", {}, {});
    updateData := CopyWhenTruthy(updateData, body, "container_id", {"student_id"}, {});
    updateData := CopyWhenDefined(updateData, body, "notes", {"student_id", "container_id"}, {});
    write := Modify(id, updateData, Actor(user, Get(existing.row, "modified_by")));
    reply := if updated.Done? then Succeeded(200, UPDATED, updated.result) else Crash(updated.message);
  }

  /** Corrected, a truthy student in the request is written. */
  lemma UpdateCorrectedChangesStudent(id: string, body: Obj, data: Obj, modifiedBy: Value)
    requires CopiedFrom(data, body, {"student_id", "container_id"}, {"notes"})
    ensures var st := UpdateSpec(UPDATE_RULES, data, modifiedBy, id);
      && (Assigns(st, "student_id") <==> Truthy(Get(body, "student_id")))
      && (Assigns(st, "container_id") <==> Truthy(Get(body, "container_id")))
      && (Assigns(st, "notes") <==> Get(body, "notes") != Undefined)
  {
    UpdateWritesGivenFields(data, modifiedBy, id);
    if "student_id" in data { assert Get(data, "student_id") == Get(body, "student_id"); }
    if "container_id" in data { assert Get(data, "container_id") == Get(body, "container_id"); }
    if "notes" in data { assert Get(data, "notes") == Get(body, "notes"); }
  }

  /** `delete`: 404 when missing, before any deletion. */
  method Delete(id: string, existing: Lookup, deleted: Outcome<Value>)
    returns (reply: Reply, write: Write)
    ensures existing.Fails? ==> reply == Crash(existing.message) && write == NoWrite
    ensures existing.Missing? ==> reply == Failure(404, NOT_FOUND) && write == NoWrite
    ensures existing.Found? ==> write == Remove(id)
    ensures existing.Found? ==> reply == (if deleted.Done? then Acknowledged(DELETED) else Crash(deleted.message))
  {
    if existing.Fails? {
      return Crash(existing.message), NoWrite;
    }
    if existing.Missing? {
      return Failure(404, NOT_FOUND), NoWrite;
    }
    write := Remove(id);
    reply := if deleted.Done? then Acknowledged(DELETED) else Crash(deleted.message);
  }
}
