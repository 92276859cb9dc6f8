/** The feeding report handlers: the reply each sends and the statement or
    write it issues, given what every awaited call resolves to. */
module SheepReportController {
  import opened Js
  import opened Sql
  import opened Http
  import opened Store
  import opened SheepReportModel

  const DEFAULT_LIMIT := 50
  const RECENT_LIMIT := 10
  const SYSTEM := "system"
  const NOT_FOUND := "Sheep report not found"
  const CREATED := "Sheep report created successfully"
  const UPDATED := "Sheep report updated successfully"
  const DELETED := "Sheep report deleted successfully"

  /** The query parameters `getAll` copies into its filters when truthy. */
  const QUERY_FILTERS: set<string> := {"sheep_id", "status", "date_from", "date_to"}

  /** `getAll`: the filters object holds the truthy sheep_id, status,
      date_from and date_to, and goes to both `findAll` and `count`. */
  method GetAll(query: Obj, limit: Option<int>, offset: Option<int>, rows: Outcome<seq<Value>>, total: Outcome<int>)
    returns (reply: Reply, filters: Obj, page: SelectStatement, count: SelectStatement)
    ensures CopiedFrom(filters, query, QUERY_FILTERS, {})
    ensures var l, o := QueryInt(limit, DEFAULT_LIMIT), QueryInt(offset, 0);
      && page == PageSpec(FILTERS, filters, l, o)
      && count == CountSpec(COUNT_FILTERS, filters)
      && (rows.Done? && total.Done? ==> reply == Listed(rows.result, Pagination(total.result, l, o)))
    ensures rows.Threw? ==> reply == Crash(rows.message)
    ensures rows.Done? && total.Threw? ==> reply == Crash(total.message)
  {
    var parsedLimit := QueryInt(limit, DEFAULT_LIMIT);
    var parsedOffset := QueryInt(offset, 0);
    filters := map[];
    filters := CopyWhenTruthy(filters, query, "sheep_id", {}, {});
    filters := CopyWhenTruthy(filters, query, "status", {"sheep_id"}, {});
    filters := CopyWhenTruthy(filters, query, "date_from", {"sheep_id", "status"}, {});
    filters := CopyWhenTruthy(filters, query, "date_to", {"sheep_id", "status", "date_from"}, {});
    page := SheepReport.FindAll(parsedLimit, parsedOffset, filters);
    count := SheepReport.Count(filters);
    if rows.Threw? {
      return Crash(rows.message), filters, page, count;
    }
    if total.Threw? {
      return Crash(total.message), filters, page, count;
    }
    reply := Listed(rows.result, Pagination(total.result, parsedLimit, parsedOffset));
  }

  /** The total `getAll` reports does not depend on the date range: two
      requests that agree on sheep_id and status are counted by the same
      statement, while their pages may differ. */
  lemma TotalIgnoresDateRange(q1: Obj, q2: Obj, f1: Obj, f2: Obj)
    requires CopiedFrom(f1, q1, QUERY_FILTERS, {}) && CopiedFrom(f2, q2, QUERY_FILTERS, {})
    requires Get(q1, "sheep_id") == Get(q2, "sheep_id") && Get(q1, "status") == Get(q2, "status")
    ensures CountSpec(COUNT_FILTERS, f1) == CountSpec(COUNT_FILTERS, f2)
  {
    forall r | r in COUNT_FILTERS
      ensures Get(f1, r.key) == Get(f2, r.key)
    {
      if r.key in f1 {
        assert f1[r.key] == Get(q1, r.key);
      }
      if r.key in f2 {
        assert f2[r.key] == Get(q2, r.key);
      }
    }
    WhereReadsOnlyRuleKeys(COUNT_FILTERS, f1, f2);
  }

  /** `getRecentByStatus`: the limit defaults to 10. */
  method GetRecentByStatus(status: Value, limit: Option<int>, rows: Outcome<seq<Value>>)
    returns (reply: Reply, recent: SelectStatement)
    ensures recent.params == [Bind(status), Bind(Num(QueryInt(limit, RECENT_LIMIT)))]
    ensures limit.None? ==> recent.params[1] == Bind(Num(10))
    ensures recent.conditions == [Condition("status", Equals, 1)] && recent.limitIndex == Some(2)
    ensures rows.Done? ==> reply == Fetched(Arr(rows.result))
    ensures rows.Threw? ==> reply == Crash(rows.message)
  {
    recent := SheepReport.GetRecentByStatus(status, QueryInt(limit, RECENT_LIMIT));
    reply := if rows.Done? then Fetched(Arr(rows.result)) else Crash(rows.message);
  }

  /** `create`: the author is the caller or else "system". */
  method Create(body: Obj, user: Option<Obj>, freshId: string, saved: Outcome<Value>)
    returns (reply: Reply, write: Write)
    requires freshId != ""
    ensures var author := Actor(user, Str(SYSTEM));
      && Truthy(author)
      && write == Insert([Bind(Str(freshId)), Bind(Get(body, "sheep_id")), Bind(Get(body, "feeding_time")),
                          Bind(Get(body, "status")), Bind(author), Bind(author)])
    ensures saved.Done? ==> reply == Succeeded(201, CREATED, saved.result)
    ensures saved.Threw? ==> reply == Crash(saved.message)
  {
    var sheepReportData := map[
      "sheep_id" := Get(body, "sheep_id"),
      "feeding_time" := Get(body, "feeding_time"),
      "status" := Get(body, "status"),
      "created_by" := Actor(user, Str(SYSTEM)),
      "modified_by" := Actor(user, Str(SYSTEM))
    ];
    var sheepReport := new SheepReport(sheepReportData, freshId);
    var values := sheepReport.Save();
    write := Insert(values);
    reply := if saved.Done? then Succeeded(201, CREATED, saved.result) else Crash(saved.message);
  }

  /** `update`: 404 when missing, before any write; each field is copied
      only when truthy. */
  method Update(id: string, body: Obj, user: Option<Obj>, existing: Lookup, updated: Outcome<Value>)
    returns (reply: Reply, write: Write)
    ensures existing.Fails? ==> reply == Crash(existing.message) && write == NoWrite
    ensures existing.Missing? ==> reply == Failure(404, NOT_FOUND) && write == NoWrite
    ensures existing.Found? ==>
      && write.Modify? && write.id == id
      && CopiedFrom(write.data, body, {"sheep_id", "feeding_time", "status"}, {})
      && write.modifiedBy == Actor(user, Get(existing.row, "modified_by"))
      && reply == (if updated.Done? then Succeeded(200, UPDATED, updated.result) else Crash(updated.message))
  {
    if existing.Fails? {
      return Crash(existing.message), NoWrite;
    }
    if existing.Missing? {
      return Failure(404, NOT_FOUND), NoWrite;
    }
    var updateData: Obj := map[];
    updateData := CopyWhenTruthy(updateData, body, "sheep_id", {}, {});
    updateData := CopyWhenTruthy(updateData, body, "feeding_time", {"sheep_id"}, {});
    updateData := CopyWhenTruthy(updateData, body, "status", {"sheep_id", "feeding_time"}, {});
    write := Modify(id, updateData, Actor(user, Get(existing.row, "modified_by")));
    reply := if updated.Done? then Succeeded(200, UPDATED, updated.result) else Crash(updated.message);
  }

  /** The update a request makes reaches the table as: each field exactly
      when it is truthy in the request, then `modified_by` and `modified_at`. */
  lemma UpdateStatementOfRequest(id: string, body: Obj, data: Obj, modifiedBy: Value)
    requires CopiedFrom(data, body, {"sheep_id", "feeding_time", "status"}, {})
    ensures var st := UpdateSpec(UPDATE_RULES, data, modifiedBy, id);
      && WellNumbered(st)
      && (Assigns(st, "sheep_id") <==> Truthy(Get(body, "sheep_id")))
      && (Assigns(st, "feeding_time") <==> Truthy(Get(body, "feeding_time")))
      && (Assigns(st, "status") <==> Truthy(Get(body, "status")))
  {
    UpdateWritesGivenFields(data, modifiedBy, id);
    if "sheep_id" in data { assert Get(data, "sheep_id") == Get(body, "sheep_id"); }
    if "feeding_time" in data { assert Get(data, "feeding_time") == Get(body, "feeding_time"); }
    if "status" in data { assert Get(data, "status") == Get(body, "status"); }
  }

  /** `delete`: 404 when missing, before any deletion. */
  method Delete(id: string, existing: Lookup, deleted: Outcome<Value>)
    returns (reply: Reply, write: Write)
    ensures existing.Fails? ==> reply == Crash(existing.message) && write == NoWrite
    ensures existing.Missing? ==> reply == Failure(404, NOT_FOUND) && write == NoWrite
    ensures existing.Found? ==> write == Remove(id)
    ensures existing.Found? ==> reply == (if deleted.Done? then Acknowledged(DELETED) else Crash(deleted.message))
  {
    if existing.Fails? {
      return Crash(existing.message), NoWrite;
    }
    if existing.Missing? {
      return Failure(404, NOT_FOUND), NoWrite;
    }
    write := Remove(id);
    reply := if deleted.Done? then Acknowledged(DELETED) else Crash(deleted.message);
  }
}
