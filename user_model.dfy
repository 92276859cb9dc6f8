/** The users table: the row a new user gets, the statements that read and
    write it, and which of them expose the password column. */
module UserModel {
  import opened Js
  import opened Sql
  import Roles

  /** The columns `INSERT INTO users` names, in order. */
  const INSERT_COLUMNS: seq<string> :=
    ["id", "email", "password", "full_name", "role", "created_by", "modified_by"]

  /** The columns every public read and every RETURNING clause projects. */
  const PUBLIC_COLUMNS: seq<string> := ["id", "email", "full_name", "role", "created_at", "modified_at"]

  /** Every column of the table, as `SELECT *` returns them. */
  const ALL_COLUMNS: seq<string> :=
    ["id", "email", "password", "full_name", "role", "created_at", "modified_at", "created_by", "modified_by"]

  /** The optional fields of `update`, in the order it tests them. */
  const UPDATE_RULES: seq<FieldRule> := [
    FieldRule("email", IfTruthy, false),
    FieldRule("full_name", IfTruthy, false),
    FieldRule("password", IfTruthy, true),
    FieldRule("role", IfDefined, false)
  ]

  /** The SET items of `update` as its four push steps. */
  lemma UpdateRulesFold(data: Obj)
    ensures SetItems(UPDATE_RULES, data) ==
      PushField(PushField(PushField(PushField(([], []), UPDATE_RULES[0], data), UPDATE_RULES[1], data), UPDATE_RULES[2], data), UPDATE_RULES[3], data)
  {
    SetItemsStep(UPDATE_RULES, 0, data);
    SetItemsStep(UPDATE_RULES, 1, data);
    SetItemsStep(UPDATE_RULES, 2, data);
    SetItemsStep(UPDATE_RULES, 3, data);
    assert UPDATE_RULES[..4] == UPDATE_RULES;
  }

  /** The statements that return user rows. */
  datatype Query = FindAll | FindById | FindByEmail | FindByRole | SaveReturning | UpdateReturning

  /** The columns each statement returns: only `findByEmail` selects `*`, and
      so only it returns the password hash. */
  function Projection(q: Query): (columns: seq<string>)
    ensures "password" in columns <==> q == FindByEmail
    ensures q != FindByEmail ==> columns == PUBLIC_COLUMNS
    ensures forall c :: c in PUBLIC_COLUMNS ==> c in columns
  {
    if q == FindByEmail then ALL_COLUMNS else PUBLIC_COLUMNS
  }

  class User {
    var id: Value
    var email: Value
    var password: Value
    var fullName: Value
    var role: Value
    var createdAt: Value
    var modifiedAt: Value
    var createdBy: Value
    var modifiedBy: Value

    /** `new User(data)`; `freshId` is the uuid drawn when `data.id` is falsy.
        The role defaults to USER only when it is undefined (a null role is
        kept), and the audit columns default to the row's own id. */
    constructor(data: Obj, freshId: string)
      requires freshId != ""
      ensures id == Or(Get(data, "id"), Str(freshId)) && Truthy(id)
      ensures email == Get(data, "email") && password == Get(data, "password") && fullName == Get(data, "full_name")
      ensures Get(data, "role") != Undefined ==> role == Get(data, "role")
      ensures Get(data, "role") == Undefined ==> role == Num(Roles.USER)
      ensures createdAt == Get(data, "created_at") && modifiedAt == Get(data, "modified_at")
      ensures createdBy == Or(Get(data, "created_by"), id) && Truthy(createdBy)
      ensures modifiedBy == Or(Get(data, "modified_by"), id) && Truthy(modifiedBy)
    {
      var rowId := Or(Get(data, "id"), Str(freshId));
      id := rowId;
      email := Get(data, "email");
      password := Get(data, "password");
      fullName := Get(data, "full_name");
      role := if Get(data, "role") != Undefined then Get(data, "role") else Num(Roles.USER);
      createdAt := Get(data, "created_at");
      modifiedAt := Get(data, "modified_at");
      createdBy := Or(Get(data, "created_by"), rowId);
      modifiedBy := Or(Get(data, "modified_by"), rowId);
    }

    /** `save()`: the INSERT parameters, with the password replaced by its hash. */
    method Save() returns (values: seq<Param>)
      ensures |values| == |INSERT_COLUMNS|
      ensures forall i :: 0 <= i < |values| ==> (values[i].HashOf? <==> INSERT_COLUMNS[i] == "password")
      ensures values[2] == HashOf(password)
      ensures values == [Bind(id), Bind(email), HashOf(password), Bind(fullName), Bind(role), Bind(createdBy), Bind(modifiedBy)]
    {
      var hashedPassword := HashOf(password);
      values := [Bind(id), Bind(email), hashedPassword, Bind(fullName), Bind(role), Bind(createdBy), Bind(modifiedBy)];
    }

    /** `isAdmin()`: strict comparison with ADMIN. */
    predicate IsAdmin()
      reads this
      ensures IsAdmin() ==> !IsUser()
    {
      Roles.IsAdmin(role)
    }

    /** `isUser()`: strict comparison with USER. */
    predicate IsUser()
      reads this
    {
      Roles.IsUser(role)
    }

    /** `User.findAll(limit, offset)`: every user, newest first, one page. */
    static method FindAll(limit: int, offset: int) returns (st: SelectStatement)
      ensures st == PageSpec([], map[], limit, offset)
      ensures st.conditions == [] && st.params == [Bind(Num(limit)), Bind(Num(offset))]
    {
      st := SelectStatement([], [Bind(Num(limit)), Bind(Num(offset))], Some(1), Some(2));
    }

    /** `User.update(id, data, modified_by)`. */
    static method Update(id: string, data: Obj, modifiedBy: Value) returns (st: UpdateStatement)
      ensures st == UpdateSpec(UPDATE_RULES, data, modifiedBy, id)
    {
      var updateFields: seq<Assignment> := [];
      var values: seq<Param> := [];
      var paramCount: nat := 1;
      updateFields, values, paramCount := PushSetItem(updateFields, values, paramCount, UPDATE_RULES[0], data);
      updateFields, values, paramCount := PushSetItem(updateFields, values, paramCount, UPDATE_RULES[1], data);
      updateFields, values, paramCount := PushSetItem(updateFields, values, paramCount, UPDATE_RULES[2], data);
      updateFields, values, paramCount := PushSetItem(updateFields, values, paramCount, UPDATE_RULES[3], data);
      UpdateRulesFold(data);
      updateFields := updateFields + [SetParam("modified_by", paramCount)];
      paramCount := paramCount + 1;
      values := values + [Bind(modifiedBy)];
      updateFields := updateFields + [SetNow("modified_at")];
      values := values + [Bind(Str(id))];
      st := UpdateStatement(updateFields, values, paramCount);
    }
  }

  /** `update` sets email, full_name and password only when truthy, role
      whenever it is not undefined (so a role of 0 or null is written), and
      always `modified_by` and `modified_at`; placeholders run $1..$n and the
      id is bound to the last one. */
  lemma UpdateWritesGivenFields(data: Obj, modifiedBy: Value, id: string)
    ensures var st := UpdateSpec(UPDATE_RULES, data, modifiedBy, id);
      && WellNumbered(st)
      && (Assigns(st, "email") <==> Truthy(Get(data, "email")))
      && (Assigns(st, "full_name") <==> Truthy(Get(data, "full_name")))
      && (Assigns(st, "password") <==> Truthy(Get(data, "password")))
      && (Assigns(st, "role") <==> Get(data, "role") != Undefined)
      && Assigns(st, "modified_by") && Assigns(st, "modified_at")
      && st.values[|st.values| - 2] == Bind(modifiedBy)
      && st.values[|st.values| - 1] == Bind(Str(id))
  {
    UpdateSpecWritesExactlyGiven(UPDATE_RULES, data, modifiedBy, id);
    assert UPDATE_RULES[0] in UPDATE_RULES && UPDATE_RULES[1] in UPDATE_RULES;
    assert UPDATE_RULES[2] in UPDATE_RULES && UPDATE_RULES[3] in UPDATE_RULES;
  }

  /** In an update the only hashed parameter is the password's, and a given
      password is bound only as its hash. */
  lemma UpdateHashesPassword(data: Obj, modifiedBy: Value, id: string)
    ensures var st := UpdateSpec(UPDATE_RULES, data, modifiedBy, id);
      && |st.values| == |st.assignments|
      && (forall i :: 0 <= i < |st.values| ==> (st.values[i].HashOf? <==> st.assignments[i].column == "password"))
      && (Truthy(Get(data, "password")) ==> HashOf(Get(data, "password")) in st.values)
  {
    var st := UpdateSpec(UPDATE_RULES, data, modifiedBy, id);
    var w := Written(UPDATE_RULES, data);
    SetItemsNumbered(UPDATE_RULES, data);
    UpdateSpecWellNumbered(UPDATE_RULES, data, modifiedBy, id);
    forall i | 0 <= i < |w|
      ensures st.values[i].HashOf? <==> st.assignments[i].column == "password"
    {
      WrittenIff(UPDATE_RULES, data, w[i]);
    }
    if Truthy(Get(data, "password")) {
      WrittenIff(UPDATE_RULES, data, UPDATE_RULES[2]);
      var k :| 0 <= k < |w| && w[k] == UPDATE_RULES[2];
      assert st.values[k] == HashOf(Get(data, "password"));
    }
  }
}
