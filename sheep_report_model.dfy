/** The sheep_reports table: a new feeding report's row, the page query
    with its four filters, the count with only two of them, the recent-by-status
    query and the update statement. */
module SheepReportModel {
  import opened Js
  import opened Sql

  /** The columns `INSERT INTO sheep_reports` names, in order. */
  const INSERT_COLUMNS: seq<string> := ["id", "sheep_id", "feeding_time", "status", "created_by", "modified_by"]

  /** The optional filters of `findAll`; the dates compare against feeding_time. */
  const FILTERS: seq<FilterRule> := [
    FilterRule("sheep_id", "sheep_id", Equals),
    FilterRule("status", "status", Equals),
    FilterRule("date_from", "feeding_time", AtLeast),
    FilterRule("date_to", "feeding_time", AtMost)
  ]

  /** The optional filters `count` tests: only the first two of `findAll`'s. */
  const COUNT_FILTERS: seq<FilterRule> := [
    FilterRule("sheep_id", "sheep_id", Equals),
    FilterRule("status", "status", Equals)
  ]

  /** The optional fields of `update`, each written only when truthy. */
  const UPDATE_RULES: seq<FieldRule> := [
    FieldRule("sheep_id", IfTruthy, false),
    FieldRule("feeding_time", IfTruthy, false),
    FieldRule("status", IfTruthy, false)
  ]

  lemma FiltersFold(filters: Obj)
    ensures Where(FILTERS, filters) ==
      PushFilter(PushFilter(PushFilter(PushFilter(([], []),
        FILTERS[0], filters), FILTERS[1], filters), FILTERS[2], filters), FILTERS[3], filters)
  {
    WhereStep(FILTERS, 0, filters);
    WhereStep(FILTERS, 1, filters);
    WhereStep(FILTERS, 2, filters);
    WhereStep(FILTERS, 3, filters);
    assert FILTERS[..4] == FILTERS;
  }

  lemma CountFiltersFold(filters: Obj)
    ensures Where(COUNT_FILTERS, filters) ==
      PushFilter(PushFilter(([], []), COUNT_FILTERS[0], filters), COUNT_FILTERS[1], filters)
  {
    WhereStep(COUNT_FILTERS, 0, filters);
    WhereStep(COUNT_FILTERS, 1, filters);
    assert COUNT_FILTERS[..2] == COUNT_FILTERS;
  }

  lemma UpdateRulesFold(data: Obj)
    ensures SetItems(UPDATE_RULES, data) ==
      PushField(PushField(PushField(([], []), UPDATE_RULES[0], data), UPDATE_RULES[1], data), UPDATE_RULES[2], data)
  {
    SetItemsStep(UPDATE_RULES, 0, data);
    SetItemsStep(UPDATE_RULES, 1, data);
    SetItemsStep(UPDATE_RULES, 2, data);
    assert UPDATE_RULES[..3] == UPDATE_RULES;
  }

  class SheepReport {
    var id: Value
    var sheepId: Value
    var feedingTime: Value
    var status: Value
    var createdAt: Value
    var modifiedAt: Value
    var createdBy: Value
    var modifiedBy: Value

    /** `new SheepReport(data)`: a fresh id when none is given; the audit
        columns are taken as given, with no default. */
    constructor(data: Obj, freshId: string)
      requires freshId != ""
      ensures id == Or(Get(data, "id"), Str(freshId)) && Truthy(id)
      ensures sheepId == Get(data, "sheep_id") && feedingTime == Get(data, "feeding_time") && status == Get(data, "status")
      ensures createdAt == Get(data, "created_at") && modifiedAt == Get(data, "modified_at")
      ensures createdBy == Get(data, "created_by") && modifiedBy == Get(data, "modified_by")
    {
      id := Or(Get(data, "id"), Str(freshId));
      sheepId := Get(data, "sheep_id");
      feedingTime := Get(data, "feeding_time");
      status := Get(data, "status");
      createdAt := Get(data, "created_at");
      modifiedAt := Get(data, "modified_at");
      createdBy := Get(data, "created_by");
      modifiedBy := Get(data, "modified_by");
    }

    /** The field that holds column `column`; undefined for a column the
        class has no field for. */
    function Column(column: string): Value
      reads this
    {
      if column == "id" then id
      else if column == "sheep_id" then sheepId
      else if column == "feeding_time" then feedingTime
      else if column == "status" then status
      else if column == "created_at" then createdAt
      else if column == "modified_at" then modifiedAt
      else if column == "created_by" then createdBy
      else if column == "modified_by" then modifiedBy
      else Undefined
    }

    /** `save()`: the INSERT parameters, each bound to the field of the
        column it fills. */
    method Save() returns (values: seq<Param>)
      ensures forall i {:trigger Column(INSERT_COLUMNS[i])} :: 0 <= i < |INSERT_COLUMNS| ==>
        i < |values| && values[i] == Bind(Column(INSERT_COLUMNS[i]))
      ensures |values| <= |INSERT_COLUMNS|
      ensures values == [Bind(id), Bind(sheepId), Bind(feedingTime), Bind(status), Bind(createdBy), Bind(modifiedBy)]
    {
      values := [Bind(id), Bind(sheepId), Bind(feedingTime), Bind(status), Bind(createdBy), Bind(modifiedBy)];
    }

    /** `SheepReport.findAll(limit, offset, filters)`. */
    static method FindAll(limit: int, offset: int, filters: Obj) returns (st: SelectStatement)
      ensures st == PageSpec(FILTERS, filters, limit, offset)
    {
      var conditions: seq<Condition> := [];
      var params: seq<Param> := [];
      var paramCount: nat := 1;
      conditions, params, paramCount := PushCondition(conditions, params, paramCount, FILTERS[0], filters);
      conditions, params, paramCount := PushCondition(conditions, params, paramCount, FILTERS[1], filters);
      conditions, params, paramCount := PushCondition(conditions, params, paramCount, FILTERS[2], filters);
      conditions, params, paramCount := PushCondition(conditions, params, paramCount, FILTERS[3], filters);
      FiltersFold(filters);
      var limitIndex := paramCount;
      paramCount := paramCount + 1;
      params := params + [Bind(Num(limit)), Bind(Num(offset))];
      st := SelectStatement(conditions, params, Some(limitIndex), Some(paramCount));
    }

    /** `SheepReport.count(filters)` as written: sheep_id and status only. */
    static method Count(filters: Obj) returns (st: SelectStatement)
      ensures st == CountSpec(COUNT_FILTERS, filters)
    {
      var conditions: seq<Condition> := [];
      var params: seq<Param> := [];
      var paramCount: nat := 1;
      conditions, params, paramCount := PushCondition(conditions, params, paramCount, COUNT_FILTERS[0], filters);
      conditions, params, paramCount := PushCondition(conditions, params, paramCount, COUNT_FILTERS[1], filters);
      CountFiltersFold(filters);
      st := SelectStatement(conditions, params, None, None);
    }

    /** The count the page query needs: all four filters of `findAll`. */
    static method CountCorrected(filters: Obj) returns (st: SelectStatement)
      ensures st == CountSpec(FILTERS, filters)
    {
      var conditions: seq<Condition> := [];
      var params: seq<Param> := [];
      var paramCount: nat := 1;
      conditions, params, paramCount := PushCondition(conditions, params, paramCount, FILTERS[0], filters);
      conditions, params, paramCount := PushCondition(conditions, params, paramCount, FILTERS[1], filters);
      conditions, params, paramCount := PushCondition(conditions, params, paramCount, FILTERS[2], filters);
      conditions, params, paramCount := PushCondition(conditions, params, paramCount, FILTERS[3], filters);
      FiltersFold(filters);
      st := SelectStatement(conditions, params, None, None);
    }

    /** `SheepReport.getRecentByStatus(status, limit)`: status is $1 and the
        limit $2, with no offset. For a truthy status it filters exactly as
        `count({ status })` does; unlike `count`, it keeps the condition for
        a falsy status too. */
    static method GetRecentByStatus(status: Value, limit: int) returns (st: SelectStatement)
      ensures st.conditions == [Condition("status", Equals, 1)]
      ensures st.params == [Bind(status), Bind(Num(limit))]
      ensures st.limitIndex == Some(2) && st.offsetIndex == None
      ensures Truthy(status) ==>
        var counted := CountSpec(COUNT_FILTERS, map["status" := status]);
        st.conditions == counted.conditions && st.params == counted.params + [Bind(Num(limit))]
      ensures !Truthy(status) ==> CountSpec(COUNT_FILTERS, map["status" := status]).conditions == []
    {
      CountFiltersFold(map["status" := status]);
      st := SelectStatement([Condition("status", Equals, 1)], [Bind(status), Bind(Num(limit))], Some(2), None);
    }

    /** `SheepReport.update(id, data, modified_by)`. */
    static method Update(id: string, data: Obj, modifiedBy: Value) returns (st: UpdateStatement)
      ensures st == UpdateSpec(UPDATE_RULES, data, modifiedBy, id)
    {
      var updateFields: seq<Assignment> := [];
      var values: seq<Param> := [];
      var paramCount: nat := 1;
      updateFields, values, paramCount := PushSetItem(updateFields, values, paramCount, UPDATE_RULES[0], data);
      updateFields, values, paramCount := PushSetItem(updateFields, values, paramCount, UPDATE_RULES[1], data);
      updateFields, values, paramCount := PushSetItem(updateFields, values, paramCount, UPDATE_RULES[2], data);
      UpdateRulesFold(data);
      updateFields := updateFields + [SetParam("modified_by", paramCount)];
      paramCount := paramCount + 1;
      values := values + [Bind(modifiedBy)];
      updateFields := updateFields + [SetNow("modified_at")];
      values := values + [Bind(Str(id))];
      st := UpdateStatement(updateFields, values, paramCount);
    }
  }

  /** `findAll` filters on sheep_id, status, then the feeding_time range,
      numbered from $1, followed by LIMIT and OFFSET. */
  lemma FindAllFilters(filters: Obj, limit: int, offset: int)
    ensures var st := PageSpec(FILTERS, filters, limit, offset);
      && |st.conditions| == (if Truthy(Get(filters, "sheep_id")) then 1 else 0)
                            + (if Truthy(Get(filters, "status")) then 1 else 0)
                            + (if Truthy(Get(filters, "date_from")) then 1 else 0)
                            + (if Truthy(Get(filters, "date_to")) then 1 else 0)
      && (forall i :: 0 <= i < |st.conditions| ==> st.conditions[i].placeholder == i + 1)
      && st.limitIndex == Some(|st.conditions| + 1) && st.offsetIndex == Some(|st.conditions| + 2)
      && (Truthy(Get(filters, "date_from")) <==> exists k :: Condition("feeding_time", AtLeast, k) in st.conditions)
      && (Truthy(Get(filters, "date_to")) <==> exists k :: Condition("feeding_time", AtMost, k) in st.conditions)
  {
    FiltersFold(filters);
    PageSpecShape(FILTERS, filters, limit, offset);
  }

  /** The count as written ignores the date range: changing date_from or
      date_to never changes its statement. */
  lemma CountIgnoresDates(filters: Obj, key: string, v: Value)
    requires key == "date_from" || key == "date_to"
    ensures CountSpec(COUNT_FILTERS, filters[key := v]) == CountSpec(COUNT_FILTERS, filters)
  {
    forall r | r in COUNT_FILTERS
      ensures r.key != key
    {
    }
    WhereIgnoresOtherKeys(COUNT_FILTERS, filters, key, v);
  }

  /** With a date filter, the page query is narrowed and the count as
      written is not, so the two disagree. */
  lemma CountDisagreesWithFindAll(limit: int, offset: int)
    ensures var filters := map["date_from" := Str("2024-01-01")];
      && |PageSpec(FILTERS, filters, limit, offset).conditions| == 1
      && CountSpec(COUNT_FILTERS, filters).conditions == []
  {
    FiltersFold(map["date_from" := Str("2024-01-01")]);
    CountFiltersFold(map["date_from" := Str("2024-01-01")]);
  }

  /** The corrected count applies exactly the filters of `findAll`. */
  lemma CorrectedCountMatchesFindAll(filters: Obj, limit: int, offset: int)
    ensures var page, total := PageSpec(FILTERS, filters, limit, offset), CountSpec(FILTERS, filters);
      && total.conditions == page.conditions
      && page.params == total.params + [Bind(Num(limit)), Bind(Num(offset))]
  {
  }

  /** `update` writes each of sheep_id, feeding_time and status only when
      truthy, always `modified_by` and `modified_at`, and binds the id to the
      last placeholder, which equals the number of values. */
  lemma UpdateWritesGivenFields(data: Obj, modifiedBy: Value, id: string)
    ensures var st := UpdateSpec(UPDATE_RULES, data, modifiedBy, id);
      && WellNumbered(st)
      && (Assigns(st, "sheep_id") <==> Truthy(Get(data, "sheep_id")))
      && (Assigns(st, "feeding_time") <==> Truthy(Get(data, "feeding_time")))
      && (Assigns(st, "status") <==> Truthy(Get(data, "status")))
      && Assigns(st, "modified_by") && Assigns(st, "modified_at")
      && st.values[|st.values| - 2] == Bind(modifiedBy)
      && st.values[|st.values| - 1] == Bind(Str(id))
  {
    UpdateSpecWritesExactlyGiven(UPDATE_RULES, data, modifiedBy, id);
    assert UPDATE_RULES[0] in UPDATE_RULES && UPDATE_RULES[1] in UPDATE_RULES && UPDATE_RULES[2] in UPDATE_RULES;
  }
}
