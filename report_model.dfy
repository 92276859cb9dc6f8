/** The reports table: a new report's row, the filtered page and count
    queries, and the update statement. */
module ReportModel {
  import opened Js
  import opened Sql

  /** The columns `INSERT INTO reports` names, in order. */
  const INSERT_COLUMNS: seq<string> := ["id", "student_id", "container_id", "sensor_data_id", "notes", "created_by", "modified_by"]

  /** The optional filters of `findAll` and `count`: the student and the container. */
  const FILTERS: seq<FilterRule> := [
    FilterRule("student_id", "student_id", Equals),
    FilterRule("container_id", "container_id", Equals)
  ]

  /** The optional fields of `update`: the references only when truthy, the
      notes whenever they are not undefined. */
  const UPDATE_RULES: seq<FieldRule> := [
    FieldRule("student_id", IfTruthy, false),
    FieldRule("container_id", IfTruthy, false),
    FieldRule("sensor_data_id", IfTruthy, false),
    FieldRule("notes", IfDefined, false)
  ]

  lemma FiltersFold(filters: Obj)
    ensures Where(FILTERS, filters) == PushFilter(PushFilter(([], []), FILTERS[0], filters), FILTERS[1], filters)
  {
    WhereStep(FILTERS, 0, filters);
    WhereStep(FILTERS, 1, filters);
    assert FILTERS[..2] == FILTERS;
  }

  lemma UpdateRulesFold(data: Obj)
    ensures SetItems(UPDATE_RULES, data) ==
      PushField(PushField(PushField(PushField(([], []),
        UPDATE_RULES[0], data), UPDATE_RULES[1], data), UPDATE_RULES[2], data), UPDATE_RULES[3], data)
  {
    SetItemsStep(UPDATE_RULES, 0, data);
    SetItemsStep(UPDATE_RULES, 1, data);
    SetItemsStep(UPDATE_RULES, 2, data);
    SetItemsStep(UPDATE_RULES, 3, data);
    assert UPDATE_RULES[..4] == UPDATE_RULES;
  }

  class Report {
    var id: Value
    var studentId: Value
    var containerId: Value
    var sensorDataId: Value
    var notes: Value
    var createdAt: Value
    var modifiedAt: Value
    var createdBy: Value
    var modifiedBy: Value

    /** `new Report(data)`: the student comes from `data.student_id`; the
        audit columns default to the row's own id. */
    constructor(data: Obj, freshId: string)
      requires freshId != ""
      ensures id == Or(Get(data, "id"), Str(freshId)) && Truthy(id)
      ensures studentId == Get(data, "student_id") && containerId == Get(data, "container_id")
      ensures sensorDataId == Get(data, "sensor_data_id") && notes == Get(data, "notes")
      ensures createdAt == Get(data, "created_at") && modifiedAt == Get(data, "modified_at")
      ensures createdBy == Or(Get(data, "created_by"), id) && Truthy(createdBy)
      ensures modifiedBy == Or(Get(data, "modified_by"), id) && Truthy(modifiedBy)
    {
      var rowId := Or(Get(data, "id"), Str(freshId));
      id := rowId;
      studentId := Get(data, "student_id");
      containerId := Get(data, "container_id");
      sensorDataId := Get(data, "sensor_data_id");
      notes := Get(data, "notes");
      createdAt := Get(data, "created_at");
      modifiedAt := Get(data, "modified_at");
      createdBy := Or(Get(data, "created_by"), rowId);
      modifiedBy := Or(Get(data, "modified_by"), rowId);
    }

    /** The field that holds column `column`; undefined for a column the
        class has no field for. */
    function Column(column: string): Value
      reads this
    {
      if column == "id" then id
      else if column == "student_id" then studentId
      else if column == "container_id" then containerId
      else if column == "sensor_data_id" then sensorDataId
      else if column == "notes" then notes
      else if column == "created_at" then createdAt
      else if column == "modified_at" then modifiedAt
      else if column == "created_by" then createdBy
      else if column == "modified_by" then modifiedBy
      else Undefined
    }

    /** `save()`: the INSERT parameters, each bound to the field of the
        column it fills. */
    method Save() returns (values: seq<Param>)
      ensures forall i {:trigger Column(INSERT_COLUMNS[i])} :: 0 <= i < |INSERT_COLUMNS| ==>
        i < |values| && values[i] == Bind(Column(INSERT_COLUMNS[i]))
      ensures |values| <= |INSERT_COLUMNS|
      ensures values == [Bind(id), Bind(studentId), Bind(containerId), Bind(sensorDataId), Bind(notes),
                         Bind(createdBy), Bind(modifiedBy)]
    {
      values := [Bind(id), Bind(studentId), Bind(containerId), Bind(sensorDataId), Bind(notes),
                 Bind(createdBy), Bind(modifiedBy)];
    }

    /** `Report.findAll(limit, offset, filters)`. */
    static method FindAll(limit: int, offset: int, filters: Obj) returns (st: SelectStatement)
      ensures st == PageSpec(FILTERS, filters, limit, offset)
    {
      var conditions: seq<Condition> := [];
      var params: seq<Param> := [];
      var paramCount: nat := 1;
      conditions, params, paramCount := PushCondition(conditions, params, paramCount, FILTERS[0], filters);
      conditions, params, paramCount := PushCondition(conditions, params, paramCount, FILTERS[1], filters);
      FiltersFold(filters);
      var limitIndex := paramCount;
      paramCount := paramCount + 1;
      params := params + [Bind(Num(limit)), Bind(Num(offset))];
      st := SelectStatement(conditions, params, Some(limitIndex), Some(paramCount));
    }

    /** `Report.count(filters)`. */
    static method Count(filters: Obj) returns (st: SelectStatement)
      ensures st == CountSpec(FILTERS, filters)
    {
      var conditions: seq<Condition> := [];
      var params: seq<Param> := [];
      var paramCount: nat := 1;
      conditions, params, paramCount := PushCondition(conditions, params, paramCount, FILTERS[0], filters);
      conditions, params, paramCount := PushCondition(conditions, params, paramCount, FILTERS[1], filters);
      FiltersFold(filters);
      st := SelectStatement(conditions, params, None, None);
    }

    /** `Report.update(id, data, modified_by)`. */
    static method Update(id: string, data: Obj, modifiedBy: Value) returns (st: UpdateStatement)
      ensures st == UpdateSpec(UPDATE_RULES, data, modifiedBy, id)
    {
      var updateFields: seq<Assignment> := [];
      var values: seq<Param> := [];
      var paramCount: nat := 1;
      updateFields, values, paramCount := PushSetItem(updateFields, values, paramCount, UPDATE_RULES[0], data);
      updateFields, values, paramCount := PushSetItem(updateFields, values, paramCount, UPDATE_RULES[1], data);
      updateFields, values, paramCount := PushSetItem(updateFields, values, paramCount, UPDATE_RULES[2], data);
      updateFields, values, paramCount := PushSetItem(updateFields, values, paramCount, UPDATE_RULES[3], data);
      UpdateRulesFold(data);
      updateFields := updateFields + [SetParam("modified_by", paramCount)];
      paramCount := paramCount + 1;
      values := values + [Bind(modifiedBy)];
      updateFields := updateFields + [SetNow("modified_at")];
      values := values + [Bind(Str(id))];
      st := UpdateStatement(updateFields, values, paramCount);
    }
  }

  /** `findAll` filters on student_id then container_id, one placeholder
      each, followed by LIMIT and OFFSET; any other key (user_id among them)
      leaves the statement unchanged. */
  lemma FindAllFilters(filters: Obj, limit: int, offset: int, key: string, v: Value)
    requires key != "student_id" && key != "container_id"
    ensures var st := PageSpec(FILTERS, filters, limit, offset);
      && |st.conditions| == (if Truthy(Get(filters, "student_id")) then 1 else 0)
                            + (if Truthy(Get(filters, "container_id")) then 1 else 0)
      && (forall i :: 0 <= i < |st.conditions| ==> st.conditions[i].placeholder == i + 1)
      && st.limitIndex == Some(|st.conditions| + 1) && st.offsetIndex == Some(|st.conditions| + 2)
      && (Truthy(Get(filters, "student_id")) ==>
            st.conditions[0] == Condition("student_id", Equals, 1) && st.params[0] == Bind(Get(filters, "student_id")))
      && PageSpec(FILTERS, filters[key := v], limit, offset) == st
  {
    FiltersFold(filters);
    PageSpecShape(FILTERS, filters, limit, offset);
    forall r | r in FILTERS
      ensures r.key != key
    {
    }
    WhereIgnoresOtherKeys(FILTERS, filters, key, v);
  }

  /** `count` uses the same two filters in the same order as `findAll`. */
  lemma CountMatchesFindAll(filters: Obj, limit: int, offset: int)
    ensures var page, total := PageSpec(FILTERS, filters, limit, offset), CountSpec(FILTERS, filters);
      && total.conditions == page.conditions
      && page.params == total.params + [Bind(Num(limit)), Bind(Num(offset))]
  {
  }

  /** `update` writes the references only when truthy and the notes whenever
      they are not undefined (so an empty string clears them), then always
      `modified_by` and `modified_at`, with the id bound last. */
  lemma UpdateWritesGivenFields(data: Obj, modifiedBy: Value, id: string)
    ensures var st := UpdateSpec(UPDATE_RULES, data, modifiedBy, id);
      && WellNumbered(st)
      && (Assigns(st, "student_id") <==> Truthy(Get(data, "student_id")))
      && (Assigns(st, "container_id") <==> Truthy(Get(data, "container_id")))
      && (Assigns(st, "sensor_data_id") <==> Truthy(Get(data, "sensor_data_id")))
      && (Assigns(st, "notes") <==> Get(data, "notes") != Undefined)
      && Assigns(st, "modified_by") && Assigns(st, "modified_at")
      && st.values[|st.values| - 2] == Bind(modifiedBy)
      && st.values[|st.values| - 1] == Bind(Str(id))
  {
    UpdateSpecWritesExactlyGiven(UPDATE_RULES, data, modifiedBy, id);
    assert UPDATE_RULES[0] in UPDATE_RULES && UPDATE_RULES[1] in UPDATE_RULES;
    assert UPDATE_RULES[2] in UPDATE_RULES && UPDATE_RULES[3] in UPDATE_RULES;
  }

  /** Empty notes are written as the empty string. */
  lemma EmptyNotesAreWritten(modifiedBy: Value, id: string)
    ensures var st := UpdateSpec(UPDATE_RULES, map["notes" := Str("")], modifiedBy, id);
      st.assignments[0] == SetParam("notes", 1) && st.values[0] == Bind(Str(""))
  {
    UpdateRulesFold(map["notes" := Str("")]);
  }
}
