/** Parameterised SQL as the models build it: the SET list of an UPDATE and
    the WHERE/LIMIT/OFFSET part of a SELECT, with their `$n` placeholders and
    the parameter array bound to them. Statements are kept structural (column,
    operator, placeholder number); the SQL text around them is not modelled. */
module Sql {
  import opened Js

  /** A bound parameter: a value, or the hash the password helper returns for
      a plaintext (the helper itself is not part of this model). */
  datatype Param = Bind(value: Value) | HashOf(plain: Value)

  // ---------------------------------------------------------------- UPDATE

  /** One item of a SET list: `column = $placeholder` or `column = NOW()`. */
  datatype Assignment = SetParam(column: string, placeholder: nat) | SetNow(column: string)

  /** `UPDATE t SET <assignments> WHERE id = $whereIndex`, run with `values`. */
  datatype UpdateStatement = UpdateStatement(assignments: seq<Assignment>, values: seq<Param>, whereIndex: nat)

  /** How an update decides that an optional field is given: `if (data.f)` or
      `if (data.f !== undefined)`. */
  datatype Presence = IfTruthy | IfDefined

  /** An optional column of an update, in the order the model tests it;
      `hashed` when the model binds the password helper's hash of the value. */
  datatype FieldRule = FieldRule(column: string, presence: Presence, hashed: bool)

  predicate Present(rule: FieldRule, data: Obj)
  {
    match rule.presence
    case IfTruthy => Truthy(Get(data, rule.column))
    case IfDefined => Get(data, rule.column) != Undefined
  }

  function ParamFor(rule: FieldRule, data: Obj): Param
  {
    if rule.hashed then HashOf(Get(data, rule.column)) else Bind(Get(data, rule.column))
  }

  /** The rules whose field is given, in rule order. */
  function Written(rules: seq<FieldRule>, data: Obj): seq<FieldRule>
  {
    if rules == [] then []
    else
      var last := rules[|rules| - 1];
      Written(rules[..|rules| - 1], data) + (if Present(last, data) then [last] else [])
  }

  /** One `if (present) { updateFields.push(`col = $${paramCount++}`); values.push(v) }`
      step: the next placeholder is one past the values pushed so far. */
  function PushField(items: (seq<Assignment>, seq<Param>), rule: FieldRule, data: Obj): (seq<Assignment>, seq<Param>)
  {
    if Present(rule, data) then
      (items.0 + [SetParam(rule.column, |items.1| + 1)], items.1 + [ParamFor(rule, data)])
    else items
  }

  /** The SET items and parameters the optional fields contribute, pushed in
      rule order with placeholders counted from $1. */
  function SetItems(rules: seq<FieldRule>, data: Obj): (seq<Assignment>, seq<Param>)
  {
    if rules == [] then ([], [])
    else PushField(SetItems(rules[..|rules| - 1], data), rules[|rules| - 1], data)
  }

  /** Testing one more rule extends the SET items by one push step. */
  lemma SetItemsStep(rules: seq<FieldRule>, k: nat, data: Obj)
    requires k < |rules|
    ensures SetItems(rules[..k + 1], data) == PushField(SetItems(rules[..k], data), rules[k], data)
  {
    assert rules[..k + 1][..k] == rules[..k];
  }

  /** One guarded push of an update builder:
      `if (<present>) { updateFields.push(`column = $${paramCount++}`); values.push(<value>) }`. */
  method PushSetItem(updateFields: seq<Assignment>, values: seq<Param>, paramCount: nat, rule: FieldRule, data: Obj)
    returns (nextFields: seq<Assignment>, nextValues: seq<Param>, nextCount: nat)
    requires paramCount == |values| + 1
    ensures (nextFields, nextValues) == PushField((updateFields, values), rule, data)
    ensures nextCount == |nextValues| + 1
  {
    nextFields, nextValues, nextCount := updateFields, values, paramCount;
    if Present(rule, data) {
      nextFields := nextFields + [SetParam(rule.column, nextCount)];
      nextCount := nextCount + 1;
      nextValues := nextValues + [ParamFor(rule, data)];
    }
  }

  /** The statement every model's `update(id, data, modified_by)` builds: the
      given optional fields, then `modified_by` and `modified_at = NOW()`, with
      the id bound last. */
  function UpdateSpec(rules: seq<FieldRule>, data: Obj, modifiedBy: Value, id: string): UpdateStatement
  {
    var items := SetItems(rules, data);
    UpdateStatement(
      items.0 + [SetParam("modified_by", |items.1| + 1), SetNow("modified_at")],
      items.1 + [Bind(modifiedBy), Bind(Str(id))],
      |items.1| + 2)
  }

  /** The SET items are exactly the given fields, in order, numbered
      consecutively from $1, each bound to its own value. */
  lemma {:induction false} SetItemsNumbered(rules: seq<FieldRule>, data: Obj)
    ensures var items, w := SetItems(rules, data), Written(rules, data);
      |items.0| == |w| == |items.1| &&
      forall i :: 0 <= i < |w| ==> items.0[i] == SetParam(w[i].column, i + 1) && items.1[i] == ParamFor(w[i], data)
  {
    if rules != [] {
      SetItemsNumbered(rules[..|rules| - 1], data);
    }
  }

  /** A rule is written exactly when it is one of the rules and its field is given. */
  lemma {:induction false} WrittenIff(rules: seq<FieldRule>, data: Obj, r: FieldRule)
    ensures r in Written(rules, data) <==> r in rules && Present(r, data)
  {
    if rules != [] {
      WrittenIff(rules[..|rules| - 1], data, r);
      assert rules == rules[..|rules| - 1] + [rules[|rules| - 1]];
    }
  }

  predicate DistinctColumns(rules: seq<FieldRule>)
  {
    forall i, j :: 0 <= i < j < |rules| ==> rules[i].column != rules[j].column
  }

  /** The column of some SET item. */
  predicate Assigns(st: UpdateStatement, column: string)
  {
    exists i :: 0 <= i < |st.assignments| && st.assignments[i].column == column
  }

  /** Placeholders run $1..$n in push order, each bound to the value pushed
      with it; `modified_by` is the last placeholder before the id, and the
      WHERE placeholder is the last one, equal to the number of values. */
  predicate WellNumbered(st: UpdateStatement)
  {
    && |st.assignments| >= 2
    && |st.values| == |st.assignments|
    && st.whereIndex == |st.values|
    && (forall i :: 0 <= i < |st.assignments| - 1 ==>
          st.assignments[i].SetParam? && st.assignments[i].placeholder == i + 1)
    && st.assignments[|st.assignments| - 1] == SetNow("modified_at")
    && st.assignments[|st.assignments| - 2].column == "modified_by"
  }

  /** The `i`-th SET item assigns one of the given fields its own value. */
  predicate GivenFieldAt(st: UpdateStatement, rules: seq<FieldRule>, data: Obj, i: int)
    requires 0 <= i < |st.assignments| && i < |st.values|
  {
    exists r :: r in rules && Present(r, data) && st.assignments[i].column == r.column && st.values[i] == ParamFor(r, data)
  }

  /** Every SET item before `modified_by` assigns a given field its own value. */
  predicate SetsOnlyGivenFields(st: UpdateStatement, rules: seq<FieldRule>, data: Obj)
    requires |st.assignments| <= |st.values|
  {
    forall i :: 0 <= i < |st.assignments| - 2 ==> GivenFieldAt(st, rules, data, i)
  }

  /** Every update the models build is well numbered, binds `modified_by` and
      the id in the last two places, and binds each given field to its value. */
  lemma UpdateSpecWellNumbered(rules: seq<FieldRule>, data: Obj, modifiedBy: Value, id: string)
    ensures var st := UpdateSpec(rules, data, modifiedBy, id);
      && WellNumbered(st)
      && st.values[|st.values| - 2] == Bind(modifiedBy)
      && st.values[|st.values| - 1] == Bind(Str(id))
      && SetsOnlyGivenFields(st, rules, data)
  {
    var st := UpdateSpec(rules, data, modifiedBy, id);
    var w := Written(rules, data);
    SetItemsNumbered(rules, data);
    forall i | 0 <= i < |st.assignments| - 2
      ensures GivenFieldAt(st, rules, data, i)
    {
      var items := SetItems(rules, data);
      assert st.assignments[i] == items.0[i] && st.values[i] == items.1[i];
      WrittenIff(rules, data, w[i]);
      assert w[i] in rules && Present(w[i], data) && st.assignments[i].column == w[i].column;
    }
  }

  /** A field's column is in the SET list exactly when the field is given;
      `modified_by` and `modified_at` always are. */
  lemma UpdateSpecAssignsIff(rules: seq<FieldRule>, data: Obj, modifiedBy: Value, id: string, r: FieldRule)
    requires r in rules && DistinctColumns(rules)
    requires r.column != "modified_by" && r.column != "modified_at"
    ensures var st := UpdateSpec(rules, data, modifiedBy, id);
      (Assigns(st, r.column) <==> Present(r, data)) && Assigns(st, "modified_by") && Assigns(st, "modified_at")
  {
    var st := UpdateSpec(rules, data, modifiedBy, id);
    var w := Written(rules, data);
    SetItemsNumbered(rules, data);
    WrittenIff(rules, data, r);
    var n := |st.assignments|;
    assert st.assignments[n - 2].column == "modified_by";
    assert st.assignments[n - 1].column == "modified_at";
    if Present(r, data) {
      var k :| 0 <= k < |w| && w[k] == r;
      assert st.assignments[k].column == r.column;
    }
    if Assigns(st, r.column) {
      var i :| 0 <= i < n && st.assignments[i].column == r.column;
      assert i < |w|;
      WrittenIff(rules, data, w[i]);
      var a :| 0 <= a < |rules| && rules[a] == w[i];
      var b :| 0 <= b < |rules| && rules[b] == r;
      assert a == b;
    }
  }

  /** Over all the rules at once: a field is in the SET list exactly when it is
      given, `modified_by` and `modified_at` always are, and the statement is
      well numbered with `modified_by` and the id bound last. */
  lemma UpdateSpecWritesExactlyGiven(rules: seq<FieldRule>, data: Obj, modifiedBy: Value, id: string)
    requires DistinctColumns(rules)
    requires forall r :: r in rules ==> r.column != "modified_by" && r.column != "modified_at"
    ensures var st := UpdateSpec(rules, data, modifiedBy, id);
      && WellNumbered(st)
      && Assigns(st, "modified_by") && Assigns(st, "modified_at")
      && st.values[|st.values| - 2] == Bind(modifiedBy)
      && st.values[|st.values| - 1] == Bind(Str(id))
      && forall r :: r in rules ==> (Assigns(st, r.column) <==> Present(r, data))
  {
    UpdateSpecWellNumbered(rules, data, modifiedBy, id);
    forall r | r in rules
      ensures Assigns(UpdateSpec(rules, data, modifiedBy, id), r.column) <==> Present(r, data)
    {
      UpdateSpecAssignsIff(rules, data, modifiedBy, id, r);
    }
    var st := UpdateSpec(rules, data, modifiedBy, id);
    assert st.assignments[|st.assignments| - 2].column == "modified_by";
    assert st.assignments[|st.assignments| - 1].column == "modified_at";
  }

  /** No column outside the rules, other than `modified_by` and
      `modified_at`, is ever in the SET list, whatever the data holds. */
  lemma UpdateSpecAssignsOnlyRuleColumns(rules: seq<FieldRule>, data: Obj, modifiedBy: Value, id: string, column: string)
    requires forall r :: r in rules ==> r.column != column
    requires column != "modified_by" && column != "modified_at"
    ensures !Assigns(UpdateSpec(rules, data, modifiedBy, id), column)
  {
    var st := UpdateSpec(rules, data, modifiedBy, id);
    UpdateSpecWellNumbered(rules, data, modifiedBy, id);
    forall i | 0 <= i < |st.assignments|
      ensures st.assignments[i].column != column
    {
      if i < |st.assignments| - 2 {
        assert GivenFieldAt(st, rules, data, i);
      }
    }
  }

  // ---------------------------------------------------------------- SELECT

  /** How a filter compares its column with the bound value. `Like` binds the
      value wrapped as `%value%` for a case-insensitive substring match. */
  datatype Comparison = Equals | AtLeast | AtMost | Like

  /** One `AND column <op> $placeholder` condition. */
  datatype Condition = Condition(column: string, op: Comparison, placeholder: nat)

  /** `if (filters.key)`: an optional condition on `column`. */
  datatype FilterRule = FilterRule(key: string, column: string, op: Comparison)

  /** A SELECT's WHERE conditions and parameters, with the placeholders of
      LIMIT and OFFSET when it has them. */
  datatype SelectStatement = SelectStatement(
    conditions: seq<Condition>, params: seq<Param>, limitIndex: Option<nat>, offsetIndex: Option<nat>)

  /** The `%value%` wrapping of a template literal. */
  function Wrapped(v: Value): Value
  {
    Str("%" + ToJsString(v) + "%")
  }

  function FilterParam(rule: FilterRule, filters: Obj): Param
  {
    var v := Get(filters, rule.key);
    if rule.op == Like then Bind(Wrapped(v)) else Bind(v)
  }

  /** The filter rules whose key is truthy in `filters`, in rule order. */
  function Applied(rules: seq<FilterRule>, filters: Obj): seq<FilterRule>
  {
    if rules == [] then []
    else
      var last := rules[|rules| - 1];
      Applied(rules[..|rules| - 1], filters) + (if Truthy(Get(filters, last.key)) then [last] else [])
  }

  /** One `if (filters.key) { sql += ` AND column op $${paramCount++}`; params.push(v) }`
      step: the next placeholder is one past the parameters pushed so far. */
  function PushFilter(w: (seq<Condition>, seq<Param>), rule: FilterRule, filters: Obj): (seq<Condition>, seq<Param>)
  {
    if Truthy(Get(filters, rule.key)) then
      (w.0 + [Condition(rule.column, rule.op, |w.1| + 1)], w.1 + [FilterParam(rule, filters)])
    else w
  }

  /** The conditions and parameters the filters contribute, appended in rule
      order with placeholders counted from $1. */
  function Where(rules: seq<FilterRule>, filters: Obj): (seq<Condition>, seq<Param>)
  {
    if rules == [] then ([], [])
    else PushFilter(Where(rules[..|rules| - 1], filters), rules[|rules| - 1], filters)
  }

  /** Testing one more filter extends the WHERE part by one push step. */
  lemma WhereStep(rules: seq<FilterRule>, k: nat, filters: Obj)
    requires k < |rules|
    ensures Where(rules[..k + 1], filters) == PushFilter(Where(rules[..k], filters), rules[k], filters)
  {
    assert rules[..k + 1][..k] == rules[..k];
  }

  /** One guarded filter of a select builder:
      `if (filters.key) { sql += ` AND column <op> $${paramCount++}`; params.push(<value>) }`. */
  method PushCondition(conditions: seq<Condition>, params: seq<Param>, paramCount: nat, rule: FilterRule, filters: Obj)
    returns (nextConditions: seq<Condition>, nextParams: seq<Param>, nextCount: nat)
    requires paramCount == |params| + 1
    ensures (nextConditions, nextParams) == PushFilter((conditions, params), rule, filters)
    ensures nextCount == |nextParams| + 1
  {
    nextConditions, nextParams, nextCount := conditions, params, paramCount;
    if Truthy(Get(filters, rule.key)) {
      nextConditions := nextConditions + [Condition(rule.column, rule.op, nextCount)];
      nextCount := nextCount + 1;
      nextParams := nextParams + [FilterParam(rule, filters)];
    }
  }

  /** The statement `count(filters)` builds. */
  function CountSpec(rules: seq<FilterRule>, filters: Obj): SelectStatement
  {
    var w := Where(rules, filters);
    SelectStatement(w.0, w.1, None, None)
  }

  /** The statement `findAll(limit, offset, filters)` builds: the filters,
      then LIMIT and OFFSET on the next two placeholders. */
  function PageSpec(rules: seq<FilterRule>, filters: Obj, limit: int, offset: int): SelectStatement
  {
    var w := Where(rules, filters);
    SelectStatement(w.0, w.1 + [Bind(Num(limit)), Bind(Num(offset))], Some(|w.1| + 1), Some(|w.1| + 2))
  }

  /** The conditions are exactly the applied filters, in order, numbered
      consecutively from $1, each bound to its filter's value. */
  lemma {:induction false} WhereNumbered(rules: seq<FilterRule>, filters: Obj)
    ensures var w, a := Where(rules, filters), Applied(rules, filters);
      |w.0| == |a| == |w.1| &&
      forall i :: 0 <= i < |a| ==>
        w.0[i] == Condition(a[i].column, a[i].op, i + 1) && w.1[i] == FilterParam(a[i], filters)
  {
    if rules != [] {
      WhereNumbered(rules[..|rules| - 1], filters);
    }
  }

  /** A filter is applied exactly when it is one of the rules and its key is truthy. */
  lemma {:induction false} AppliedIff(rules: seq<FilterRule>, filters: Obj, r: FilterRule)
    ensures r in Applied(rules, filters) <==> r in rules && Truthy(Get(filters, r.key))
  {
    if rules != [] {
      AppliedIff(rules[..|rules| - 1], filters, r);
      assert rules == rules[..|rules| - 1] + [rules[|rules| - 1]];
    }
  }

  /** Keys the rules do not read make no difference. */
  lemma {:induction false} WhereIgnoresOtherKeys(rules: seq<FilterRule>, filters: Obj, key: string, v: Value)
    requires forall r :: r in rules ==> r.key != key
    ensures Where(rules, filters[key := v]) == Where(rules, filters)
  {
    if rules != [] {
      assert rules[|rules| - 1] in rules;
      WhereIgnoresOtherKeys(rules[..|rules| - 1], filters, key, v);
    }
  }

  /** The WHERE part depends only on the values of the keys the rules read:
      two filters objects that agree on them give the same conditions and
      parameters. */
  lemma {:induction false} WhereReadsOnlyRuleKeys(rules: seq<FilterRule>, f1: Obj, f2: Obj)
    requires forall r :: r in rules ==> Get(f1, r.key) == Get(f2, r.key)
    ensures Where(rules, f1) == Where(rules, f2)
  {
    if rules != [] {
      assert rules[|rules| - 1] in rules;
      WhereReadsOnlyRuleKeys(rules[..|rules| - 1], f1, f2);
    }
  }

  /** A paged query numbers its conditions $1..$n, then LIMIT is $n+1 and
      OFFSET $n+2, and its parameters end with limit then offset; without the
      last two they are the parameters of the count over the same filters. */
  lemma PageSpecShape(rules: seq<FilterRule>, filters: Obj, limit: int, offset: int)
    ensures var st, n := PageSpec(rules, filters, limit, offset), |Applied(rules, filters)|;
      && |st.conditions| == n && |st.params| == n + 2
      && (forall i :: 0 <= i < n ==> st.conditions[i].placeholder == i + 1)
      && st.limitIndex == Some(n + 1) && st.offsetIndex == Some(n + 2)
      && st.params[n] == Bind(Num(limit)) && st.params[n + 1] == Bind(Num(offset))
      && st.params[..n] == CountSpec(rules, filters).params
      && st.conditions == CountSpec(rules, filters).conditions
  {
    WhereNumbered(rules, filters);
    var w := Where(rules, filters);
    assert (w.1 + [Bind(Num(limit)), Bind(Num(offset))])[..|w.1|] == w.1;
  }
}
