/** The sheeps table: a new sheep's row with its age default, the name
    search and the update statement. */
module SheepModel {
  import opened Js
  import opened Sql

  /** The columns `INSERT INTO sheeps` names, in order. */
  const INSERT_COLUMNS: seq<string> := ["id", "name", "age", "created_by", "modified_by"]

  /** The optional fields of `update`: the name when truthy, the age
      whenever it is not undefined. */
  const UPDATE_RULES: seq<FieldRule> := [FieldRule("name", IfTruthy, false), FieldRule("age", IfDefined, false)]

  lemma UpdateRulesFold(data: Obj)
    ensures SetItems(UPDATE_RULES, data) == PushField(PushField(([], []), UPDATE_RULES[0], data), UPDATE_RULES[1], data)
  {
    SetItemsStep(UPDATE_RULES, 0, data);
    SetItemsStep(UPDATE_RULES, 1, data);
    assert UPDATE_RULES[..2] == UPDATE_RULES;
  }

  class Sheep {
    var id: Value
    var name: Value
    var age: Value
    var createdAt: Value
    var modifiedAt: Value
    var createdBy: Value
    var modifiedBy: Value

    /** `new Sheep(data)`: a fresh id when none is given, a falsy age becomes
        0, and the audit columns are taken as given, with no default. */
    constructor(data: Obj, freshId: string)
      requires freshId != ""
      ensures id == Or(Get(data, "id"), Str(freshId)) && Truthy(id)
      ensures name == Get(data, "name")
      ensures Truthy(Get(data, "age")) ==> age == Get(data, "age")
      ensures !Truthy(Get(data, "age")) ==> age == Num(0)
      ensures createdAt == Get(data, "created_at") && modifiedAt == Get(data, "modified_at")
      ensures createdBy == Get(data, "created_by") && modifiedBy == Get(data, "modified_by")
    {
      id := Or(Get(data, "id"), Str(freshId));
      name := Get(data, "name");
      age := Or(Get(data, "age"), Num(0));
      createdAt := Get(data, "created_at");
      modifiedAt := Get(data, "modified_at");
      createdBy := Get(data, "created_by");
      modifiedBy := Get(data, "modified_by");
    }

    /** The field that holds column `column`; undefined for a column the
        class has no field for. */
    function Column(column: string): Value
      reads this
    {
      if column == "id" then id
      else if column == "name" then name
      else if column == "age" then age
      else if column == "created_at" then createdAt
      else if column == "modified_at" then modifiedAt
      else if column == "created_by" then createdBy
      else if column == "modified_by" then modifiedBy
      else Undefined
    }

    /** `save()`: the INSERT parameters, each bound to the field of the
        column it fills. */
    method Save() returns (values: seq<Param>)
      ensures forall i {:trigger Column(INSERT_COLUMNS[i])} :: 0 <= i < |INSERT_COLUMNS| ==>
        i < |values| && values[i] == Bind(Column(INSERT_COLUMNS[i]))
      ensures |values| <= |INSERT_COLUMNS|
      ensures values == [Bind(id), Bind(name), Bind(age), Bind(createdBy), Bind(modifiedBy)]
    {
      values := [Bind(id), Bind(name), Bind(age), Bind(createdBy), Bind(modifiedBy)];
    }

    /** `Sheep.findAll(limit, offset)`: no filter, LIMIT $1 OFFSET $2. */
    static method FindAll(limit: int, offset: int) returns (st: SelectStatement)
      ensures st == PageSpec([], map[], limit, offset)
      ensures st.params == [Bind(Num(limit)), Bind(Num(offset))]
      ensures st.limitIndex == Some(1) && st.offsetIndex == Some(2)
    {
      st := SelectStatement([], [Bind(Num(limit)), Bind(Num(offset))], Some(1), Some(2));
    }

    /** `Sheep.findByName(name)`: one ILIKE condition at $1 bound to `%name%`,
        with no LIMIT or OFFSET. */
    static method FindByName(name: Value) returns (st: SelectStatement)
      ensures st.conditions == [Condition("name", Like, 1)] && st.params == [Bind(Wrapped(name))]
      ensures st.limitIndex == None && st.offsetIndex == None
      ensures name.Str? ==> st.params == [Bind(Str("%" + name.s + "%"))]
    {
      st := SelectStatement([Condition("name", Like, 1)], [Bind(Wrapped(name))], None, None);
    }

    /** `Sheep.update(id, data, modified_by)`. */
    static method Update(id: string, data: Obj, modifiedBy: Value) returns (st: UpdateStatement)
      ensures st == UpdateSpec(UPDATE_RULES, data, modifiedBy, id)
    {
      var updateFields: seq<Assignment> := [];
      var values: seq<Param> := [];
      var paramCount: nat := 1;
      updateFields, values, paramCount := PushSetItem(updateFields, values, paramCount, UPDATE_RULES[0], data);
      updateFields, values, paramCount := PushSetItem(updateFields, values, paramCount, UPDATE_RULES[1], data);
      UpdateRulesFold(data);
      updateFields := updateFields + [SetParam("modified_by", paramCount)];
      paramCount := paramCount + 1;
      values := values + [Bind(modifiedBy)];
      updateFields := updateFields + [SetNow("modified_at")];
      values := values + [Bind(Str(id))];
      st := UpdateStatement(updateFields, values, paramCount);
    }
  }

  /** `update` writes the name only when truthy and the age whenever it is
      not undefined, then always `modified_by` and `modified_at`, with the id
      bound to the last placeholder. */
  lemma UpdateWritesGivenFields(data: Obj, modifiedBy: Value, id: string)
    ensures var st := UpdateSpec(UPDATE_RULES, data, modifiedBy, id);
      && WellNumbered(st)
      && (Assigns(st, "name") <==> Truthy(Get(data, "name")))
      && (Assigns(st, "age") <==> Get(data, "age") != Undefined)
      && Assigns(st, "modified_by") && Assigns(st, "modified_at")
      && st.values[|st.values| - 2] == Bind(modifiedBy)
      && st.values[|st.values| - 1] == Bind(Str(id))
  {
    UpdateSpecWritesExactlyGiven(UPDATE_RULES, data, modifiedBy, id);
    assert UPDATE_RULES[0] in UPDATE_RULES && UPDATE_RULES[1] in UPDATE_RULES;
  }

  /** An age of 0 is written. */
  lemma ZeroAgeIsWritten(modifiedBy: Value, id: string)
    ensures var st := UpdateSpec(UPDATE_RULES, map["age" := Num(0)], modifiedBy, id);
      st.assignments[0] == SetParam("age", 1) && st.values[0] == Bind(Num(0))
  {
    UpdateRulesFold(map["age" := Num(0)]);
  }
}
