/** The sensor reading handlers: the reply each sends and the statement or
    write it issues, given what every awaited call resolves to. */
module SensorDataController {
  import opened Js
  import opened Sql
  import opened Http
  import opened Store
  import opened SensorDataModel

  const DEFAULT_LIMIT := 50
  const NOT_FOUND := "Sensor data not found"
  const NONE_FOR_CONTAINER := "No sensor data found for this container"
  const CREATED := "Sensor data created successfully"
  const UPDATED := "Sensor data updated successfully"
  const DELETED := "Sensor data deleted successfully"

  /** The query parameters `getAll` copies into its filters when truthy. */
  const QUERY_FILTERS: set<string> := {"container_id", "user_id", "date_from", "date_to"}

  /** `getAll`: the filters object holds the truthy query parameters among
      container_id, user_id, date_from and date_to, and goes unchanged to
      both `findAll` and `count`; the limit defaults to 50 and is not capped. */
  method GetAll(query: Obj, limit: Option<int>, offset: Option<int>, rows: Outcome<seq<Value>>, total: Outcome<int>)
    returns (reply: Reply, filters: Obj, page: SelectStatement, count: SelectStatement)
    ensures CopiedFrom(filters, query, QUERY_FILTERS, {})
    ensures var l, o := QueryInt(limit, DEFAULT_LIMIT), QueryInt(offset, 0);
      && page == PageSpec(FILTERS, filters, l, o)
      && count == CountSpec(FILTERS, filters)
      && (rows.Done? && total.Done? ==> reply == Listed(rows.result, Pagination(total.result, l, o)))
    ensures rows.Threw? ==> reply == Crash(rows.message)
    ensures rows.Done? && total.Threw? ==> reply == Crash(total.message)
  {
    var parsedLimit := QueryInt(limit, DEFAULT_LIMIT);
    var parsedOffset := QueryInt(offset, 0);
    filters := map[];
    filters := CopyWhenTruthy(filters, query, "container_id", {}, {});
    filters := CopyWhenTruthy(filters, query, "user_id", {"container_id"}, {});
    filters := CopyWhenTruthy(filters, query, "date_from", {"container_id", "user_id"}, {});
    filters := CopyWhenTruthy(filters, query, "date_to", {"container_id", "user_id", "date_from"}, {});
    page := SensorData.FindAll(parsedLimit, parsedOffset, filters);
    count := SensorData.Count(filters);
    if rows.Threw? {
      return Crash(rows.message), filters, page, count;
    }
    if total.Threw? {
      return Crash(total.message), filters, page, count;
    }
    reply := Listed(rows.result, Pagination(total.result, parsedLimit, parsedOffset));
  }

  /** Only container_id, date_from and date_to reach the queries: two
      requests that agree on those three get the same page and count
      statements, whatever their user_id. */
  lemma UserIdDoesNotFilter(q1: Obj, q2: Obj, f1: Obj, f2: Obj, limit: int, offset: int)
    requires CopiedFrom(f1, q1, QUERY_FILTERS, {}) && CopiedFrom(f2, q2, QUERY_FILTERS, {})
    requires Get(q1, "container_id") == Get(q2, "container_id")
    requires Get(q1, "date_from") == Get(q2, "date_from") && Get(q1, "date_to") == Get(q2, "date_to")
    ensures PageSpec(FILTERS, f1, limit, offset) == PageSpec(FILTERS, f2, limit, offset)
    ensures CountSpec(FILTERS, f1) == CountSpec(FILTERS, f2)
  {
    forall r | r in FILTERS
      ensures Get(f1, r.key) == Get(f2, r.key)
    {
      assert r.key in QUERY_FILTERS;
      SameCopy(q1, q2, f1, f2, r.key);
    }
    WhereReadsOnlyRuleKeys(FILTERS, f1, f2);
  }

  /** A key copied when truthy from two queries that agree on it has the
      same value in both copies. */
  lemma SameCopy(q1: Obj, q2: Obj, f1: Obj, f2: Obj, key: string)
    requires key in QUERY_FILTERS
    requires CopiedFrom(f1, q1, QUERY_FILTERS, {}) && CopiedFrom(f2, q2, QUERY_FILTERS, {})
    requires Get(q1, key) == Get(q2, key)
    ensures Get(f1, key) == Get(f2, key)
  {
    if key in f1 {
      assert f1[key] == Get(q1, key);
      assert f2[key] == Get(q2, key);
    }
  }

  /** `getLatestByContainer`: 404 when the container has no reading. */
  method GetLatestByContainer(latest: Lookup) returns (reply: Reply)
    ensures latest.Missing? ==> reply == Failure(404, NONE_FOR_CONTAINER)
    ensures latest.Found? ==> reply == Fetched(Object(latest.row))
    ensures latest.Fails? ==> reply == Crash(latest.message)
  {
    match latest
    case Missing => reply := Failure(404, NONE_FOR_CONTAINER);
    case Found(row) => reply := Fetched(Object(row));
    case Fails(message) => reply := Crash(message);
  }

  /** `create`: the readings and container are stored as given, the status
      column is left undefined, and the author is the caller, else the
      body's user_id, else (through the constructor's default) the row's
      own id. */
  method Create(body: Obj, user: Option<Obj>, freshId: string, saved: Outcome<Value>)
    returns (reply: Reply, write: Write)
    requires freshId != ""
    ensures var author :=
        if user.Some? && Truthy(Get(user.value, "id")) then Get(user.value, "id")
        else if Truthy(Get(body, "user_id")) then Get(body, "user_id")
        else Str(freshId);
      write == Insert([Bind(Str(freshId)), Bind(Get(body, "container_id")), Bind(Get(body, "temperature")),
                       Bind(Get(body, "humidity")), Bind(Get(body, "gas")), Bind(Get(body, "ph")),
                       Bind(Undefined), Bind(author), Bind(author)])
    ensures saved.Done? ==> reply == Succeeded(201, CREATED, saved.result)
    ensures saved.Threw? ==> reply == Crash(saved.message)
  {
    var author := Actor(user, Get(body, "user_id"));
    var sensorDataObj := map[
      "container_id" := Get(body, "container_id"),
      "temperature" := Get(body, "temperature"),
      "humidity" := Get(body, "humidity"),
      "gas" := Get(body, "gas"),
      "ph" := Get(body, "ph"),
      "user_id" := Get(body, "user_id"),
      "created_by" := author,
      "modified_by" := author
    ];
    var sensorData := new SensorData(sensorDataObj, freshId);
    assert sensorData.id == Str(freshId) && sensorData.status == Undefined;
    assert sensorData.containerId == Get(body, "container_id") && sensorData.temperature == Get(body, "temperature");
    assert sensorData.humidity == Get(body, "humidity") && sensorData.gas == Get(body, "gas") && sensorData.ph == Get(body, "ph");
    assert sensorData.createdBy == Or(author, Str(freshId)) && sensorData.modifiedBy == Or(author, Str(freshId));
    var values := sensorData.Save();
    write := Insert(values);
    reply := if saved.Done? then Succeeded(201, CREATED, saved.result) else Crash(saved.message);
  }

  /** The fields `update` copies when truthy, and those it copies whenever
      they are not undefined. */
  const TRUTHY_FIELDS: set<string> := {"container_id", "user_id"}
  const DEFINED_FIELDS: set<string> := {"temperature", "humidity", "gas", "ph"}

  /** `update`: 404 when missing, before any write; container_id and
      user_id are copied when truthy, the readings whenever they are not
      undefined; the author is the caller or else the row's last author. */
  method Update(id: string, body: Obj, user: Option<Obj>, existing: Lookup, updated: Outcome<Value>)
    returns (reply: Reply, write: Write)
    ensures existing.Fails? ==> reply == Crash(existing.message) && write == NoWrite
    ensures existing.Missing? ==> reply == Failure(404, NOT_FOUND) && write == NoWrite
    ensures existing.Found? ==>
      && write.Modify? && write.id == id
      && CopiedFrom(write.data, body, TRUTHY_FIELDS, DEFINED_FIELDS)
      && write.modifiedBy == Actor(user, Get(existing.row, "modified_by"))
      && reply == (if updated.Done? then Succeeded(200, UPDATED, updated.result) else Crash(updated.message))
  {
    if existing.Fails? {
      return Crash(existing.message), NoWrite;
    }
    if existing.Missing? {
      return Failure(404, NOT_FOUND), NoWrite;
    }
    var updateData: Obj := map[];
    updateData := CopyWhenTruthy(updateData, body, "container_id", {}, {});
    updateData := CopyWhenDefined(updateData, body, "temperature", {"container_id"}, {});
    updateData := CopyWhenDefined(updateData, body, "humidity", {"container_id"}, {"temperature"});
    updateData := CopyWhenDefined(updateData, body, "gas", {"container_id"}, {"temperature", "humidity"});
    updateData := CopyWhenDefined(updateData, body, "ph", {"container_id"}, {"temperature", "humidity", "gas"});
    updateData := CopyWhenTruthy(updateData, body, "user_id", {"container_id"}, DEFINED_FIELDS);
    write := Modify(id, updateData, Actor(user, Get(existing.row, "modified_by")));
    reply := if updated.Done? then Succeeded(200, UPDATED, updated.result) else Crash(updated.message);
  }

  /** The update a request makes reaches the table as: a reading whenever
      it is given (0 included), container_id when truthy; the copied
      user_id is not a column of the statement and the status is never
      written from a request. */
  lemma UpdateStatementOfRequest(id: string, body: Obj, data: Obj, modifiedBy: Value)
    requires CopiedFrom(data, body, TRUTHY_FIELDS, DEFINED_FIELDS)
    ensures var st := UpdateSpec(UPDATE_RULES, data, modifiedBy, id);
      && WellNumbered(st)
      && (Assigns(st, "container_id") <==> Truthy(Get(body, "container_id")))
      && (Assigns(st, "temperature") <==> Get(body, "temperature") != Undefined)
      && (Assigns(st, "ph") <==> Get(body, "ph") != Undefined)
      && !Assigns(st, "status")
      && !Assigns(st, "user_id")
  {
    UpdateWritesGivenFields(data, modifiedBy, id);
    assert "status" !in data;
    assert "container_id" in TRUTHY_FIELDS && "temperature" in DEFINED_FIELDS && "ph" in DEFINED_FIELDS;
    if "container_id" in data { assert Get(data, "container_id") == Get(body, "container_id"); }
    if "temperature" in data { assert Get(data, "temperature") == Get(body, "temperature"); }
    if "ph" in data { assert Get(data, "ph") == Get(body, "ph"); }
    UpdateSpecAssignsOnlyRuleColumns(UPDATE_RULES, data, modifiedBy, id, "user_id");
  }

  /** `delete`: 404 when missing, before any deletion. */
  method Delete(id: string, existing: Lookup, deleted: Outcome<Value>)
    returns (reply: Reply, write: Write)
    ensures existing.Fails? ==> reply == Crash(existing.message) && write == NoWrite
    ensures existing.Missing? ==> reply == Failure(404, NOT_FOUND) && write == NoWrite
    ensures existing.Found? ==> write == Remove(id)
    ensures existing.Found? ==> reply == (if deleted.Done? then Acknowledged(DELETED) else Crash(deleted.message))
  {
    if existing.Fails? {
      return Crash(existing.message), NoWrite;
    }
    if existing.Missing? {
      return Failure(404, NOT_FOUND), NoWrite;
    }
    write := Remove(id);
    reply := if deleted.Done? then Acknowledged(DELETED) else Crash(deleted.message);
  }
}
