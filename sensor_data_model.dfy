/** The sensor_data table: a new reading's row, the filtered page and count
    queries, and the update statement. */
module SensorDataModel {
  import opened Js
  import opened Sql

  /** The columns `INSERT INTO sensor_data` names, in order. */
  const INSERT_COLUMNS: seq<string> := ["id", "container_id", "temperature", "humidity", "gas", "ph", "status", "created_by", "modified_by"]

  /** The optional filters of `findAll` and `count`, in the order they are tested. */
  const FILTERS: seq<FilterRule> := [
    FilterRule("container_id", "container_id", Equals),
    FilterRule("date_from", "created_at", AtLeast),
    FilterRule("date_to", "created_at", AtMost)
  ]

  /** The optional fields of `update`, in the order it tests them: the
      readings are tested against undefined, the rest for truthiness. */
  const UPDATE_RULES: seq<FieldRule> := [
    FieldRule("container_id", IfTruthy, false),
    FieldRule("temperature", IfDefined, false),
    FieldRule("humidity", IfDefined, false),
    FieldRule("gas", IfDefined, false),
    FieldRule("ph", IfDefined, false),
    FieldRule("status", IfTruthy, false)
  ]

  lemma FiltersFold(filters: Obj)
    ensures Where(FILTERS, filters) ==
      PushFilter(PushFilter(PushFilter(([], []), FILTERS[0], filters), FILTERS[1], filters), FILTERS[2], filters)
  {
    WhereStep(FILTERS, 0, filters);
    WhereStep(FILTERS, 1, filters);
    WhereStep(FILTERS, 2, filters);
    assert FILTERS[..3] == FILTERS;
  }

  lemma UpdateRulesFold(data: Obj)
    ensures SetItems(UPDATE_RULES, data) ==
      PushField(PushField(PushField(PushField(PushField(PushField(([], []),
        UPDATE_RULES[0], data), UPDATE_RULES[1], data), UPDATE_RULES[2], data),
        UPDATE_RULES[3], data), UPDATE_RULES[4], data), UPDATE_RULES[5], data)
  {
    SetItemsStep(UPDATE_RULES, 0, data);
    SetItemsStep(UPDATE_RULES, 1, data);
    SetItemsStep(UPDATE_RULES, 2, data);
    SetItemsStep(UPDATE_RULES, 3, data);
    SetItemsStep(UPDATE_RULES, 4, data);
    SetItemsStep(UPDATE_RULES, 5, data);
    assert UPDATE_RULES[..6] == UPDATE_RULES;
  }

  class SensorData {
    var id: Value
    var containerId: Value
    var temperature: Value
    var humidity: Value
    var gas: Value
    var ph: Value
    var status: Value
    var createdAt: Value
    var modifiedAt: Value
    var createdBy: Value
    var modifiedBy: Value

    /** `new SensorData(data)`; `freshId` is the uuid drawn when `data.id` is
        falsy, and the audit columns default to the row's own id. */
    constructor(data: Obj, freshId: string)
      requires freshId != ""
      ensures id == Or(Get(data, "id"), Str(freshId)) && Truthy(id)
      ensures containerId == Get(data, "container_id") && status == Get(data, "status")
      ensures temperature == Get(data, "temperature") && humidity == Get(data, "humidity")
      ensures gas == Get(data, "gas") && ph == Get(data, "ph")
      ensures createdAt == Get(data, "created_at") && modifiedAt == Get(data, "modified_at")
      ensures createdBy == Or(Get(data, "created_by"), id) && Truthy(createdBy)
      ensures modifiedBy == Or(Get(data, "modified_by"), id) && Truthy(modifiedBy)
    {
      var rowId := Or(Get(data, "id"), Str(freshId));
      id := rowId;
      containerId := Get(data, "container_id");
      temperature := Get(data, "temperature");
      humidity := Get(data, "humidity");
      gas := Get(data, "gas");
      ph := Get(data, "ph");
      status := Get(data, "status");
      createdAt := Get(data, "created_at");
      modifiedAt := Get(data, "modified_at");
      createdBy := Or(Get(data, "created_by"), rowId);
      modifiedBy := Or(Get(data, "modified_by"), rowId);
    }

    /** The field that holds column `column`; undefined for a column the
        class has no field for. */
    function Column(column: string): Value
      reads this
    {
      if column == "id" then id
      else if column == "container_id" then containerId
      else if column == "temperature" then temperature
      else if column == "humidity" then humidity
      else if column == "gas" then gas
      else if column == "ph" then ph
      else if column == "status" then status
      else if column == "created_at" then createdAt
      else if column == "modified_at" then modifiedAt
      else if column == "created_by" then createdBy
      else if column == "modified_by" then modifiedBy
      else Undefined
    }

    /** `save()`: the INSERT parameters, each bound to the field of the
        column it fills. */
    method Save() returns (values: seq<Param>)
      ensures forall i {:trigger Column(INSERT_COLUMNS[i])} :: 0 <= i < |INSERT_COLUMNS| ==>
        i < |values| && values[i] == Bind(Column(INSERT_COLUMNS[i]))
      ensures |values| <= |INSERT_COLUMNS|
      ensures values == [Bind(id), Bind(containerId), Bind(temperature), Bind(humidity), Bind(gas),
                         Bind(ph), Bind(status), Bind(createdBy), Bind(modifiedBy)]
    {
      values := [Bind(id), Bind(containerId), Bind(temperature), Bind(humidity), Bind(gas),
                 Bind(ph), Bind(status), Bind(createdBy), Bind(modifiedBy)];
    }

    /** `SensorData.findAll(limit, offset, filters)`. */
    static method FindAll(limit: int, offset: int, filters: Obj) returns (st: SelectStatement)
      ensures st == PageSpec(FILTERS, filters, limit, offset)
    {
      var conditions: seq<Condition> := [];
      var params: seq<Param> := [];
      var paramCount: nat := 1;
      conditions, params, paramCount := PushCondition(conditions, params, paramCount, FILTERS[0], filters);
      conditions, params, paramCount := PushCondition(conditions, params, paramCount, FILTERS[1], filters);
      conditions, params, paramCount := PushCondition(conditions, params, paramCount, FILTERS[2], filters);
      FiltersFold(filters);
      var limitIndex := paramCount;
      paramCount := paramCount + 1;
      params := params + [Bind(Num(limit)), Bind(Num(offset))];
      st := SelectStatement(conditions, params, Some(limitIndex), Some(paramCount));
    }

    /** `SensorData.count(filters)`. */
    static method Count(filters: Obj) returns (st: SelectStatement)
      ensures st == CountSpec(FILTERS, filters)
    {
      var conditions: seq<Condition> := [];
      var params: seq<Param> := [];
      var paramCount: nat := 1;
      conditions, params, paramCount := PushCondition(conditions, params, paramCount, FILTERS[0], filters);
      conditions, params, paramCount := PushCondition(conditions, params, paramCount, FILTERS[1], filters);
      conditions, params, paramCount := PushCondition(conditions, params, paramCount, FILTERS[2], filters);
      FiltersFold(filters);
      st := SelectStatement(conditions, params, None, None);
    }

    /** `SensorData.update(id, data, modified_by)`. */
    static method Update(id: string, data: Obj, modifiedBy: Value) returns (st: UpdateStatement)
      ensures st == UpdateSpec(UPDATE_RULES, data, modifiedBy, id)
    {
      var updateFields: seq<Assignment> := [];
      var values: seq<Param> := [];
      var paramCount: nat := 1;
      updateFields, values, paramCount := PushSetItem(updateFields, values, paramCount, UPDATE_RULES[0], data);
      updateFields, values, paramCount := PushSetItem(updateFields, values, paramCount, UPDATE_RULES[1], data);
      updateFields, values, paramCount := PushSetItem(updateFields, values, paramCount, UPDATE_RULES[2], data);
      updateFields, values, paramCount := PushSetItem(updateFields, values, paramCount, UPDATE_RULES[3], data);
      updateFields, values, paramCount := PushSetItem(updateFields, values, paramCount, UPDATE_RULES[4], data);
      updateFields, values, paramCount := PushSetItem(updateFields, values, paramCount, UPDATE_RULES[5], data);
      UpdateRulesFold(data);
      updateFields := updateFields + [SetParam("modified_by", paramCount)];
      paramCount := paramCount + 1;
      values := values + [Bind(modifiedBy)];
      updateFields := updateFields + [SetNow("modified_at")];
      values := values + [Bind(Str(id))];
      st := UpdateStatement(updateFields, values, paramCount);
    }
  }

  /** `findAll` adds one condition per truthy filter, in the order
      container_id, date_from, date_to, numbered from $1; keys it does not
      test, such as user_id, change nothing. */
  lemma FindAllFilters(filters: Obj, limit: int, offset: int, key: string, v: Value)
    requires key != "container_id" && key != "date_from" && key != "date_to"
    ensures var st := PageSpec(FILTERS, filters, limit, offset);
      && |st.conditions| == (if Truthy(Get(filters, "container_id")) then 1 else 0)
                            + (if Truthy(Get(filters, "date_from")) then 1 else 0)
                            + (if Truthy(Get(filters, "date_to")) then 1 else 0)
      && (forall i :: 0 <= i < |st.conditions| ==> st.conditions[i].placeholder == i + 1)
      && (Truthy(Get(filters, "container_id")) ==>
            st.conditions[0] == Condition("container_id", Equals, 1) && st.params[0] == Bind(Get(filters, "container_id")))
      && PageSpec(FILTERS, filters[key := v], limit, offset) == st
  {
    FiltersFold(filters);
    PageSpecShape(FILTERS, filters, limit, offset);
    forall r | r in FILTERS
      ensures r.key != key
    {
    }
    WhereIgnoresOtherKeys(FILTERS, filters, key, v);
  }

  /** `count` applies exactly the filters of `findAll`: its conditions and
      parameters are those of the page query without LIMIT and OFFSET. */
  lemma CountMatchesFindAll(filters: Obj, limit: int, offset: int)
    ensures var page, total := PageSpec(FILTERS, filters, limit, offset), CountSpec(FILTERS, filters);
      && total.conditions == page.conditions
      && page.params == total.params + [Bind(Num(limit)), Bind(Num(offset))]
      && page.limitIndex == Some(|total.params| + 1) && page.offsetIndex == Some(|total.params| + 2)
  {
  }

  /** `update` writes a reading whenever it is not undefined, so a reading
      of 0 is written; container_id and status only when truthy; and always
      `modified_by` and `modified_at`, with the id bound to the last placeholder. */
  lemma UpdateWritesGivenFields(data: Obj, modifiedBy: Value, id: string)
    ensures var st := UpdateSpec(UPDATE_RULES, data, modifiedBy, id);
      && WellNumbered(st)
      && (Assigns(st, "container_id") <==> Truthy(Get(data, "container_id")))
      && (Assigns(st, "temperature") <==> Get(data, "temperature") != Undefined)
      && (Assigns(st, "humidity") <==> Get(data, "humidity") != Undefined)
      && (Assigns(st, "gas") <==> Get(data, "gas") != Undefined)
      && (Assigns(st, "ph") <==> Get(data, "ph") != Undefined)
      && (Assigns(st, "status") <==> Truthy(Get(data, "status")))
      && Assigns(st, "modified_by") && Assigns(st, "modified_at")
      && st.values[|st.values| - 2] == Bind(modifiedBy)
      && st.values[|st.values| - 1] == Bind(Str(id))
  {
    UpdateSpecWritesExactlyGiven(UPDATE_RULES, data, modifiedBy, id);
    assert UPDATE_RULES[0] in UPDATE_RULES && UPDATE_RULES[1] in UPDATE_RULES && UPDATE_RULES[2] in UPDATE_RULES;
    assert UPDATE_RULES[3] in UPDATE_RULES && UPDATE_RULES[4] in UPDATE_RULES && UPDATE_RULES[5] in UPDATE_RULES;
  }

  /** A reading of 0 is written, where a truthiness test would have dropped it. */
  lemma ZeroReadingIsWritten(modifiedBy: Value, id: string)
    ensures var st := UpdateSpec(UPDATE_RULES, map["temperature" := Num(0)], modifiedBy, id);
      st.assignments[0] == SetParam("temperature", 1) && st.values[0] == Bind(Num(0))
  {
    UpdateRulesFold(map["temperature" := Num(0)]);
  }
}
