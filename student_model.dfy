/** The students table: a new student's row, the page and count queries with
    their optional name search, and the update statement. */
module StudentModel {
  import opened Js
  import opened Sql

  /** The columns `INSERT INTO students` names, in order. */
  const INSERT_COLUMNS: seq<string> := ["id", "full_name", "created_by", "modified_by"]

  /** The optional name search: `full_name ILIKE '%name%'`. */
  const NAME_FILTER: seq<FilterRule> := [FilterRule("full_name", "full_name", Like)]

  /** The only optional field of `update`. */
  const UPDATE_RULES: seq<FieldRule> := [FieldRule("full_name", IfTruthy, false)]

  /** `findAll` and `count` take the name itself rather than a filters
      object; this is the filters object it stands for. */
  function NameSearch(fullName: Value): Obj
  {
    map["full_name" := fullName]
  }

  lemma NameFilterFold(filters: Obj)
    ensures Where(NAME_FILTER, filters) == PushFilter(([], []), NAME_FILTER[0], filters)
  {
    WhereStep(NAME_FILTER, 0, filters);
    assert NAME_FILTER[..1] == NAME_FILTER;
  }

  lemma UpdateRulesFold(data: Obj)
    ensures SetItems(UPDATE_RULES, data) == PushField(([], []), UPDATE_RULES[0], data)
  {
    SetItemsStep(UPDATE_RULES, 0, data);
    assert UPDATE_RULES[..1] == UPDATE_RULES;
  }

  class Student {
    var id: Value
    var fullName: Value
    var createdAt: Value
    var modifiedAt: Value
    var createdBy: Value
    var modifiedBy: Value

    /** `new Student(data)`: a fresh id when none is given; the audit columns
        default to the row's own id. */
    constructor(data: Obj, freshId: string)
      requires freshId != ""
      ensures id == Or(Get(data, "id"), Str(freshId)) && Truthy(id)
      ensures fullName == Get(data, "full_name")
      ensures createdAt == Get(data, "created_at") && modifiedAt == Get(data, "modified_at")
      ensures createdBy == Or(Get(data, "created_by"), id) && Truthy(createdBy)
      ensures modifiedBy == Or(Get(data, "modified_by"), id) && Truthy(modifiedBy)
    {
      var rowId := Or(Get(data, "id"), Str(freshId));
      id := rowId;
      fullName := Get(data, "full_name");
      createdAt := Get(data, "created_at");
      modifiedAt := Get(data, "modified_at");
      createdBy := Or(Get(data, "created_by"), rowId);
      modifiedBy := Or(Get(data, "modified_by"), rowId);
    }

    /** The field that holds column `column`; undefined for a column the
        class has no field for. */
    function Column(column: string): Value
      reads this
    {
      if column == "id" then id
      else if column == "full_name" then fullName
      else if column == "created_at" then createdAt
      else if column == "modified_at" then modifiedAt
      else if column == "created_by" then createdBy
      else if column == "modified_by" then modifiedBy
      else Undefined
    }

    /** `save()`: the INSERT parameters, each bound to the field of the
        column it fills. */
    method Save() returns (values: seq<Param>)
      ensures forall i {:trigger Column(INSERT_COLUMNS[i])} :: 0 <= i < |INSERT_COLUMNS| ==>
        i < |values| && values[i] == Bind(Column(INSERT_COLUMNS[i]))
      ensures |values| <= |INSERT_COLUMNS|
      ensures values == [Bind(id), Bind(fullName), Bind(createdBy), Bind(modifiedBy)]
    {
      values := [Bind(id), Bind(fullName), Bind(createdBy), Bind(modifiedBy)];
    }

    /** `Student.findAll(limit, offset, full_name)`. */
    static method FindAll(limit: int, offset: int, fullName: Value) returns (st: SelectStatement)
      ensures st == PageSpec(NAME_FILTER, NameSearch(fullName), limit, offset)
    {
      var conditions: seq<Condition> := [];
      var params: seq<Param> := [];
      var paramCount: nat := 1;
      conditions, params, paramCount := PushCondition(conditions, params, paramCount, NAME_FILTER[0], NameSearch(fullName));
      NameFilterFold(NameSearch(fullName));
      var limitIndex := paramCount;
      paramCount := paramCount + 1;
      params := params + [Bind(Num(limit))];
      params := params + [Bind(Num(offset))];
      st := SelectStatement(conditions, params, Some(limitIndex), Some(paramCount));
    }

    /** `Student.count(full_name)`: the condition is written with a fixed `$1`. */
    static method Count(fullName: Value) returns (st: SelectStatement)
      ensures st == CountSpec(NAME_FILTER, NameSearch(fullName))
    {
      var conditions: seq<Condition> := [];
      var params: seq<Param> := [];
      if Truthy(fullName) {
        conditions := conditions + [Condition("full_name", Like, 1)];
        params := params + [Bind(Wrapped(fullName))];
      }
      NameFilterFold(NameSearch(fullName));
      st := SelectStatement(conditions, params, None, None);
    }

    /** `Student.update(id, data, modified_by)`. */
    static method Update(id: string, data: Obj, modifiedBy: Value) returns (st: UpdateStatement)
      ensures st == UpdateSpec(UPDATE_RULES, data, modifiedBy, id)
    {
      var updateFields: seq<Assignment> := [];
      var values: seq<Param> := [];
      var paramCount: nat := 1;
      updateFields, values, paramCount := PushSetItem(updateFields, values, paramCount, UPDATE_RULES[0], data);
      UpdateRulesFold(data);
      updateFields := updateFields + [SetParam("modified_by", paramCount)];
      paramCount := paramCount + 1;
      values := values + [Bind(modifiedBy)];
      updateFields := updateFields + [SetNow("modified_at")];
      values := values + [Bind(Str(id))];
      st := UpdateStatement(updateFields, values, paramCount);
    }
  }

  /** With a name, the page query has the single ILIKE condition at $1 bound
      to `%name%`, then LIMIT $2 and OFFSET $3; without one there is no
      condition and LIMIT is $1, OFFSET $2. The count uses the same condition
      and the same wrapping. */
  lemma FindAllNameSearch(fullName: Value, limit: int, offset: int)
    ensures var page, total := PageSpec(NAME_FILTER, NameSearch(fullName), limit, offset), CountSpec(NAME_FILTER, NameSearch(fullName));
      && (Truthy(fullName) ==>
            && page.conditions == [Condition("full_name", Like, 1)]
            && page.params == [Bind(Wrapped(fullName)), Bind(Num(limit)), Bind(Num(offset))]
            && page.limitIndex == Some(2) && page.offsetIndex == Some(3))
      && (!Truthy(fullName) ==>
            && page.conditions == []
            && page.params == [Bind(Num(limit)), Bind(Num(offset))]
            && page.limitIndex == Some(1) && page.offsetIndex == Some(2))
      && total.conditions == page.conditions
      && total.params == page.params[..|page.params| - 2]
  {
    NameFilterFold(NameSearch(fullName));
  }

  /** A string name is wrapped as `%name%`. */
  lemma WrappedName(name: string)
    ensures Wrapped(Str(name)) == Str("%" + name + "%")
  {
  }

  /** `update` writes full_name only when truthy, always `modified_by` and
      `modified_at`, and binds the id last. */
  lemma UpdateWritesGivenFields(data: Obj, modifiedBy: Value, id: string)
    ensures var st := UpdateSpec(UPDATE_RULES, data, modifiedBy, id);
      && WellNumbered(st)
      && (Assigns(st, "full_name") <==> Truthy(Get(data, "full_name")))
      && Assigns(st, "modified_by") && Assigns(st, "modified_at")
      && st.values[|st.values| - 2] == Bind(modifiedBy)
      && st.values[|st.values| - 1] == Bind(Str(id))
  {
    UpdateSpecWritesExactlyGiven(UPDATE_RULES, data, modifiedBy, id);
    assert UPDATE_RULES[0] in UPDATE_RULES;
  }
}
