/** The sheep handlers: the reply each sends and the statement or write it
    issues, given what every awaited call resolves to. */
module SheepController {
  import opened Js
  import opened Sql
  import opened Http
  import opened Store
  import opened SheepModel

  const DEFAULT_LIMIT := 50
  const SYSTEM := "system"
  const NOT_FOUND := "Sheep not found"
  const CREATED := "Sheep created successfully"
  const UPDATED := "Sheep updated successfully"
  const DELETED := "Sheep deleted successfully"

  /** `getAll`: with a truthy name, every match is fetched (no LIMIT or
      OFFSET) and the total is the number of matches; otherwise the paged
      query runs and the total comes from `count`. `query` is the statement
      that fetches the rows. */
  method GetAll(limit: Option<int>, offset: Option<int>, name: Value, rows: Outcome<seq<Value>>, total: Outcome<int>)
    returns (reply: Reply, query: SelectStatement)
    ensures var l, o := QueryInt(limit, DEFAULT_LIMIT), QueryInt(offset, 0);
      && (Truthy(name) ==>
            && query.conditions == [Condition("name", Like, 1)] && query.params == [Bind(Wrapped(name))]
            && query.limitIndex == None && query.offsetIndex == None
            && (rows.Done? ==> reply == Listed(rows.result, Pagination(|rows.result|, l, o)))
            && (rows.Threw? ==> reply == Crash(rows.message)))
      && (!Truthy(name) ==>
            && query == PageSpec([], map[], l, o)
            && (rows.Done? && total.Done? ==> reply == Listed(rows.result, Pagination(total.result, l, o)))
            && (rows.Threw? ==> reply == Crash(rows.message))
            && (rows.Done? && total.Threw? ==> reply == Crash(total.message)))
  {
    var parsedLimit := QueryInt(limit, DEFAULT_LIMIT);
    var parsedOffset := QueryInt(offset, 0);
    var sheeps: seq<Value>;
    var count: int;
    if Truthy(name) {
      query := Sheep.FindByName(name);
      if rows.Threw? {
        return Crash(rows.message), query;
      }
      sheeps := rows.result;
      count := |sheeps|;
    } else {
      query := Sheep.FindAll(parsedLimit, parsedOffset);
      if rows.Threw? {
        return Crash(rows.message), query;
      }
      sheeps := rows.result;
      if total.Threw? {
        return Crash(total.message), query;
      }
      count := total.result;
    }
    reply := Listed(sheeps, Pagination(count, parsedLimit, parsedOffset));
  }

  /** `create`: a falsy age becomes 0, and the author is the caller or else
      "system", so the author columns are never left to the constructor's
      care. */
  method Create(body: Obj, user: Option<Obj>, freshId: string, saved: Outcome<Value>)
    returns (reply: Reply, write: Write)
    requires freshId != ""
    ensures var author := Actor(user, Str(SYSTEM));
      var age := if Truthy(Get(body, "age")) then Get(body, "age") else Num(0);
      && Truthy(author)
      && write == Insert([Bind(Str(freshId)), Bind(Get(body, "name")), Bind(age), Bind(author), Bind(author)])
    ensures saved.Done? ==> reply == Succeeded(201, CREATED, saved.result)
    ensures saved.Threw? ==> reply == Crash(saved.message)
  {
    var sheepData := map[
      "name" := Get(body, "name"),
      "age" := Or(Get(body, "age"), Num(0)),
      "created_by" := Actor(user, Str(SYSTEM)),
      "modified_by" := Actor(user, Str(SYSTEM))
    ];
    var sheep := new Sheep(sheepData, freshId);
    var values := sheep.Save();
    write := Insert(values);
    reply := if saved.Done? then Succeeded(201, CREATED, saved.result) else Crash(saved.message);
  }

  /** `update`: 404 when missing, before any write; the name is copied when
      truthy and the age whenever it is not undefined. */
  method Update(id: string, body: Obj, user: Option<Obj>, existing: Lookup, updated: Outcome<Value>)
    returns (reply: Reply, write: Write)
    ensures existing.Fails? ==> reply == Crash(existing.message) && write == NoWrite
    ensures existing.Missing? ==> reply == Failure(404, NOT_FOUND) && write == NoWrite
    ensures existing.Found? ==>
      && write.Modify? && write.id == id
      && CopiedFrom(write.data, body, {"name"}, {"age"})
      && write.modifiedBy == Actor(user, Get(existing.row, "modified_by"))
      && reply == (if updated.Done? then Succeeded(200, UPDATED, updated.result) else Crash(updated.message))
  {
    if existing.Fails? {
      return Crash(existing.message), NoWrite;
    }
    if existing.Missing? {
      return Failure(404, NOT_FOUND), NoWrite;
    }
    var updateData: Obj := map[];
    if Truthy(Get(body, "name")) {
      updateData := updateData["name" := Get(body, "name")];
    }
    if Get(body, "age") != Undefined {
      updateData := updateData["age" := Get(body, "age")];
    }
    write := Modify(id, updateData, Actor(user, Get(existing.row, "modified_by")));
    reply := if updated.Done? then Succeeded(200, UPDATED, updated.result) else Crash(updated.message);
  }

  /** `delete`: 404 when missing, before any deletion. */
  method Delete(id: string, existing: Lookup, deleted: Outcome<Value>)
    returns (reply: Reply, write: Write)
    ensures existing.Fails? ==> reply == Crash(existing.message) && write == NoWrite
    ensures existing.Missing? ==> reply == Failure(404, NOT_FOUND) && write == NoWrite
    ensures existing.Found? ==> write == Remove(id)
    ensures existing.Found? ==> reply == (if deleted.Done? then Acknowledged(DELETED) else Crash(deleted.message))
  {
    if existing.Fails? {
      return Crash(existing.message), NoWrite;
    }
    if existing.Missing? {
      return Failure(404, NOT_FOUND), NoWrite;
    }
    write := Remove(id);
    reply := if deleted.Done? then Acknowledged(DELETED) else Crash(deleted.message);
  }

  /** The update a request makes reaches the table as: the name when truthy,
      the age whenever it is given (0 included), then `modified_by` and
      `modified_at`. */
  lemma UpdateStatementOfRequest(id: string, body: Obj, data: Obj, modifiedBy: Value)
    requires CopiedFrom(data, body, {"name"}, {"age"})
    ensures var st := UpdateSpec(UPDATE_RULES, data, modifiedBy, id);
      && WellNumbered(st)
      && (Assigns(st, "name") <==> Truthy(Get(body, "name")))
      && (Assigns(st, "age") <==> Get(body, "age") != Undefined)
      && st.values[|st.values| - 2] == Bind(modifiedBy)
  {
    UpdateWritesGivenFields(data, modifiedBy, id);
    assert "name" in data <==> Truthy(Get(body, "name"));
    assert "age" in data <==> Get(body, "age") != Undefined;
    if "name" in data {
      assert Get(data, "name") == Get(body, "name");
    }
    if "age" in data {
      assert Get(data, "age") == Get(body, "age");
    }
  }
}
