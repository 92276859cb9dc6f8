/** The containers table: a new container's row, the page query and the
    update statement. */
module ContainerModel {
  import opened Js
  import opened Sql

  /** The columns `INSERT INTO containers` names, in order. */
  const INSERT_COLUMNS: seq<string> := ["id", "code", "created_by", "modified_by"]

  /** The only optional field of `update`. */
  const UPDATE_RULES: seq<FieldRule> := [FieldRule("code", IfTruthy, false)]

  lemma UpdateRulesFold(data: Obj)
    ensures SetItems(UPDATE_RULES, data) == PushField(([], []), UPDATE_RULES[0], data)
  {
    SetItemsStep(UPDATE_RULES, 0, data);
    assert UPDATE_RULES[..1] == UPDATE_RULES;
  }

  class Container {
    var id: Value
    var code: Value
    var createdAt: Value
    var modifiedAt: Value
    var createdBy: Value
    var modifiedBy: Value

    /** `new Container(data)`: a fresh id when none is given; the audit
        columns default to the row's own id. */
    constructor(data: Obj, freshId: string)
      requires freshId != ""
      ensures id == Or(Get(data, "id"), Str(freshId)) && Truthy(id)
      ensures code == Get(data, "code")
      ensures createdAt == Get(data, "created_at") && modifiedAt == Get(data, "modified_at")
      ensures createdBy == Or(Get(data, "created_by"), id) && Truthy(createdBy)
      ensures modifiedBy == Or(Get(data, "modified_by"), id) && Truthy(modifiedBy)
    {
      var rowId := Or(Get(data, "id"), Str(freshId));
      id := rowId;
      code := Get(data, "code");
      createdAt := Get(data, "created_at");
      modifiedAt := Get(data, "modified_at");
      createdBy := Or(Get(data, "created_by"), rowId);
      modifiedBy := Or(Get(data, "modified_by"), rowId);
    }

    /** The field that holds column `column`; undefined for a column the
        class has no field for. */
    function Column(column: string): Value
      reads this
    {
      if column == "id" then id
      else if column == "code" then code
      else if column == "created_at" then createdAt
      else if column == "modified_at" then modifiedAt
      else if column == "created_by" then createdBy
      else if column == "modified_by" then modifiedBy
      else Undefined
    }

    /** `save()`: the INSERT parameters, each bound to the field of the
        column it fills. */
    method Save() returns (values: seq<Param>)
      ensures forall i {:trigger Column(INSERT_COLUMNS[i])} :: 0 <= i < |INSERT_COLUMNS| ==>
        i < |values| && values[i] == Bind(Column(INSERT_COLUMNS[i]))
      ensures |values| <= |INSERT_COLUMNS|
      ensures values == [Bind(id), Bind(code), Bind(createdBy), Bind(modifiedBy)]
    {
      values := [Bind(id), Bind(code), Bind(createdBy), Bind(modifiedBy)];
    }

    /** `Container.findAll(limit, offset)`: no filter, LIMIT $1 OFFSET $2. */
    static method FindAll(limit: int, offset: int) returns (st: SelectStatement)
      ensures st == PageSpec([], map[], limit, offset)
      ensures st.params == [Bind(Num(limit)), Bind(Num(offset))]
      ensures st.limitIndex == Some(1) && st.offsetIndex == Some(2)
    {
      st := SelectStatement([], [Bind(Num(limit)), Bind(Num(offset))], Some(1), Some(2));
    }

    /** `Container.update(id, data, modified_by)`. */
    static method Update(id: string, data: Obj, modifiedBy: Value) returns (st: UpdateStatement)
      ensures st == UpdateSpec(UPDATE_RULES, data, modifiedBy, id)
    {
      var updateFields: seq<Assignment> := [];
      var values: seq<Param> := [];
      var paramCount: nat := 1;
      updateFields, values, paramCount := PushSetItem(updateFields, values, paramCount, UPDATE_RULES[0], data);
      UpdateRulesFold(data);
      updateFields := updateFields + [SetParam("modified_by", paramCount)];
      paramCount := paramCount + 1;
      values := values + [Bind(modifiedBy)];
      updateFields := updateFields + [SetNow("modified_at")];
      values := values + [Bind(Str(id))];
      st := UpdateStatement(updateFields, values, paramCount);
    }
  }

  /** `update` writes code only when truthy, always `modified_by` and
      `modified_at`, and binds the id to the last placeholder. */
  lemma UpdateWritesGivenFields(data: Obj, modifiedBy: Value, id: string)
    ensures var st := UpdateSpec(UPDATE_RULES, data, modifiedBy, id);
      && WellNumbered(st)
      && (Assigns(st, "code") <==> Truthy(Get(data, "code")))
      && Assigns(st, "modified_by") && Assigns(st, "modified_at")
      && st.values[|st.values| - 2] == Bind(modifiedBy)
      && st.values[|st.values| - 1] == Bind(Str(id))
  {
    UpdateSpecWritesExactlyGiven(UPDATE_RULES, data, modifiedBy, id);
    assert UPDATE_RULES[0] in UPDATE_RULES;
  }
}
