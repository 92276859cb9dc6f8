/** The request validators: each schema as a list of field rules, the
    problems a body has against it, the 400 reply a validator sends, and the
    pagination validator that writes its defaults back into the query. */
module Validation {
  import opened Js
  import opened Http
  import Roles

  /** The format checks Joi performs internally (`email()`, `uuid()`,
      `date().iso()`), taken as given predicates. */
  datatype Formats = Formats(isEmail: string -> bool, isUuid: string -> bool, isIsoDate: string -> bool)

  /** What a single field accepts:
      `Joi.string()` with length bounds (and `allow('')`), a string in one
      of the given formats, `Joi.number()`, `Joi.number().integer()` with
      bounds, and `Joi.number().valid(...)`. */
  datatype Rule =
    | Text(min: nat, max: Option<nat>, allowEmpty: bool)
    | EmailText
    | UuidText
    | IsoDate
    | Number
    | Integer(least: int, most: Option<int>)
    | OneOf(allowed: set<int>)

  /** `.required()`, `.optional()`, or `.optional().default(v)`. */
  datatype Presence = Required | Optional | Default(value: Value)

  datatype Field = Field(key: string, rule: Rule, presence: Presence)

  /** A `Joi.object({...})`, with `.min(1)` when `atLeastOneKey`. */
  datatype Schema = Schema(fields: seq<Field>, atLeastOneKey: bool)

  /** The kinds of failure; `UnknownKeys` lists the keys of the input the
      schema does not declare. */
  datatype Kind =
    | Missing | WrongType | Empty | TooShort | TooLong | BadFormat | Unsafe | OutOfRange | NotAllowed
    | UnknownKeys(keys: set<string>)
    | NoKeys

  /** One validation failure: the key it concerns ("" for the object) and its kind. */
  datatype Problem = Problem(key: string, kind: Kind)

  /** A number as Joi's `number()` converts it: a number, or a string of
      decimal digits with an optional sign. */
  function NumberOf(v: Value): (r: Option<int>)
    ensures v.Num? ==> r == Some(v.n)
    ensures !v.Num? && !v.Str? ==> r.None?
  {
    match v
    case Num(n) => Some(n)
    case Str(s) => if IsDecimal(s) then ParseInt(s) else None
    case _ => None
  }

  /** An optional sign followed by at least one decimal digit, and nothing else. */
  predicate IsDecimal(s: string)
  {
    var digits := if s != [] && (s[0] == '-' || s[0] == '+') then s[1..] else s;
    digits != [] && forall i :: 0 <= i < |digits| ==> '0' <= digits[i] <= '9'
  }

  /** The first failure of a present value against its rule, in the order
      Joi applies the type, emptiness and bound checks. String lengths are
      JavaScript lengths, in UTF-16 code units. A number beyond
      `Number.MAX_SAFE_INTEGER` either way fails `number()` itself
      (`number.unsafe`) before any of its rules. `date().iso()` also takes a
      number whose decimal form has the ISO format; a string without it is a
      format failure, any other value a type failure. */
  function RuleProblem(rule: Rule, v: Value, formats: Formats): Option<Kind>
  {
    match rule
    case Text(min, max, allowEmpty) =>
      if !v.Str? then Some(WrongType)
      else if v.s == "" then (if allowEmpty then None else Some(Empty))
      else if Utf16Length(v.s) < min then Some(TooShort)
      else if max.Some? && Utf16Length(v.s) > max.value then Some(TooLong)
      else None
    case EmailText =>
      if !v.Str? then Some(WrongType) else if v.s == "" then Some(Empty)
      else if !formats.isEmail(v.s) then Some(BadFormat) else None
    case UuidText =>
      if !v.Str? then Some(WrongType) else if v.s == "" then Some(Empty)
      else if !formats.isUuid(v.s) then Some(BadFormat) else None
    case IsoDate =>
      if v.Str? then (if formats.isIsoDate(v.s) then None else Some(BadFormat))
      else if v.Num? && formats.isIsoDate(IntToString(v.n)) then None
      else Some(WrongType)
    case Number =>
      if NumberOf(v).None? then Some(WrongType)
      else if !IsSafeInteger(NumberOf(v).value) then Some(Unsafe)
      else None
    case Integer(least, most) =>
      if NumberOf(v).None? then Some(WrongType)
      else if !IsSafeInteger(NumberOf(v).value) then Some(Unsafe)
      else if NumberOf(v).value < least then Some(OutOfRange)
      else if most.Some? && NumberOf(v).value > most.value then Some(OutOfRange)
      else None
    case OneOf(allowed) =>
      if NumberOf(v).Some? && NumberOf(v).value in allowed then None else Some(NotAllowed)
  }

  /** The failure of one field of `input`, if any: an absent field fails
      only when it is required. */
  function FieldProblem(field: Field, input: Obj, formats: Formats): Option<Kind>
  {
    var v := Get(input, field.key);
    if v == Undefined then (if field.presence == Required then Some(Missing) else None)
    else RuleProblem(field.rule, v, formats)
  }

  /** Every field failure, in the schema's order. */
  function FieldProblems(fields: seq<Field>, input: Obj, formats: Formats): (problems: seq<Problem>)
    ensures |problems| <= |fields|
  {
    if fields == [] then []
    else
      var first := FieldProblem(fields[0], input, formats);
      (if first.Some? then [Problem(fields[0].key, first.value)] else []) + FieldProblems(fields[1..], input, formats)
  }

  /** The keys a schema declares. */
  function SchemaKeys(fields: seq<Field>): (keys: set<string>)
    ensures forall i :: 0 <= i < |fields| ==> fields[i].key in keys
    ensures forall k :: k in keys ==> exists i :: 0 <= i < |fields| && fields[i].key == k
  {
    if fields == [] then {} else {fields[0].key} + SchemaKeys(fields[1..])
  }

  /** The keys of `input` a schema does not declare, which Joi refuses by
      default. */
  function ExtraKeys(schema: Schema, input: Obj): (extra: set<string>)
    ensures forall k :: k in extra <==> k in input && k !in SchemaKeys(schema.fields)
  {
    input.Keys - SchemaKeys(schema.fields)
  }

  /** Every failure of `input` against `schema`, in the order Joi finds
      them: the fields', then the undeclared keys, then `.min(1)`. */
  function Problems(schema: Schema, input: Obj, formats: Formats): seq<Problem>
  {
    var extra := ExtraKeys(schema, input);
    FieldProblems(schema.fields, input, formats)
    + (if extra != {} then [Problem("", UnknownKeys(extra))] else [])
    + (if schema.atLeastOneKey && |input| == 0 then [Problem("", NoKeys)] else [])
  }

  predicate Accepts(schema: Schema, input: Obj, formats: Formats)
  {
    Problems(schema, input, formats) == []
  }

  /** An input is accepted exactly when no field has a problem, no key is
      undeclared, and `.min(1)`, when present, is met. */
  lemma AcceptsIff(schema: Schema, input: Obj, formats: Formats)
    ensures Accepts(schema, input, formats) <==>
      && FieldProblems(schema.fields, input, formats) == []
      && input.Keys <= SchemaKeys(schema.fields)
      && !(schema.atLeastOneKey && |input| == 0)
  {
    if input.Keys <= SchemaKeys(schema.fields) {
      assert ExtraKeys(schema, input) == {};
    } else {
      var k :| k in input.Keys && k !in SchemaKeys(schema.fields);
      assert k in ExtraKeys(schema, input);
    }
  }

  /** No field has a problem exactly when each field passes on its own. */
  lemma {:induction false} FieldProblemsEmptyIff(fields: seq<Field>, input: Obj, formats: Formats)
    ensures FieldProblems(fields, input, formats) == [] <==>
      forall i :: 0 <= i < |fields| ==> FieldProblem(fields[i], input, formats).None?
  {
    if fields != [] {
      FieldProblemsEmptyIff(fields[1..], input, formats);
      assert forall i :: 1 <= i < |fields| ==> fields[i] == fields[1..][i - 1];
    }
  }

  // ------------------------------------------------------------ the schemas

  const ROLE_VALUES: set<int> := {Roles.USER, Roles.ADMIN}

  const USER_SCHEMA := Schema([
    Field("email", EmailText, Required),
    Field("password", Text(6, None, false), Required),
    Field("full_name", Text(2, Some(255), false), Required),
    Field("role", OneOf(ROLE_VALUES), Default(Num(Roles.USER)))
  ], false)

  const USER_UPDATE_SCHEMA := Schema([
    Field("email", EmailText, Optional),
    Field("password", Text(6, None, false), Optional),
    Field("full_name", Text(2, Some(255), false), Optional),
    Field("role", OneOf(ROLE_VALUES), Optional)
  ], true)

  const CONTAINER_SCHEMA := Schema([
    Field("code", Text(1, Some(50), false), Required),
    Field("location", Text(1, Some(100), false), Required),
    Field("student_id", UuidText, Required)
  ], false)

  const CONTAINER_UPDATE_SCHEMA := Schema([
    Field("code", Text(1, Some(50), false), Optional),
    Field("location", Text(1, Some(100), false), Optional),
    Field("student_id", UuidText, Optional)
  ], true)

  const SENSOR_DATA_SCHEMA := Schema([
    Field("container_id", UuidText, Required),
    Field("temperature", Number, Required),
    Field("humidity", Number, Required),
    Field("gas", Number, Required),
    Field("ph", Number, Required),
    Field("student_id", UuidText, Required)
  ], false)

  const SENSOR_DATA_UPDATE_SCHEMA := Schema([
    Field("container_id", UuidText, Optional),
    Field("temperature", Number, Optional),
    Field("humidity", Number, Optional),
    Field("gas", Number, Optional),
    Field("ph", Number, Optional),
    Field("student_id", UuidText, Optional)
  ], true)

  const REPORT_SCHEMA := Schema([
    Field("student_id", UuidText, Required),
    Field("container_id", UuidText, Required),
    Field("notes", Text(0, None, true), Optional)
  ], false)

  const REPORT_UPDATE_SCHEMA := Schema([
    Field("student_id", UuidText, Optional),
    Field("container_id", UuidText, Optional),
    Field("notes", Text(0, None, true), Optional)
  ], true)

  const STUDENT_SCHEMA := Schema([Field("full_name", Text(2, Some(255), false), Required)], false)

  const STUDENT_UPDATE_SCHEMA := Schema([Field("full_name", Text(2, Some(255), false), Optional)], true)

  const SHEEP_SCHEMA := Schema([
    Field("name", Text(1, Some(255), false), Required),
    Field("age", Integer(0, None), Optional)
  ], false)

  const SHEEP_UPDATE_SCHEMA := Schema([
    Field("name", Text(1, Some(255), false), Optional),
    Field("age", Integer(0, None), Optional)
  ], true)

  const SHEEP_REPORT_SCHEMA := Schema([
    Field("sheep_id", UuidText, Required),
    Field("feeding_time", IsoDate, Required),
    Field("status", Text(1, Some(50), false), Required)
  ], false)

  const SHEEP_REPORT_UPDATE_SCHEMA := Schema([
    Field("sheep_id", UuidText, Optional),
    Field("feeding_time", IsoDate, Optional),
    Field("status", Text(1, Some(50), false), Optional)
  ], true)

  const UUID_PARAM_SCHEMA := Schema([Field("id", UuidText, Required)], false)

  const DEFAULT_LIMIT := 50
  const MAX_LIMIT := 100

  const PAGINATION_SCHEMA := Schema([
    Field("limit", Integer(1, Some(MAX_LIMIT)), Default(Num(DEFAULT_LIMIT))),
    Field("offset", Integer(0, None), Default(Num(0)))
  ], false)

  const UPDATE_SCHEMAS: seq<Schema> := [USER_UPDATE_SCHEMA, CONTAINER_UPDATE_SCHEMA, SENSOR_DATA_UPDATE_SCHEMA,
    REPORT_UPDATE_SCHEMA, STUDENT_UPDATE_SCHEMA, SHEEP_UPDATE_SCHEMA, SHEEP_REPORT_UPDATE_SCHEMA]

  /** A schema whose fields are all optional accepts their absence. */
  lemma {:induction false} OptionalFieldsAllowAbsence(fields: seq<Field>, input: Obj, formats: Formats)
    requires forall i :: 0 <= i < |fields| ==> fields[i].presence != Required && fields[i].key !in input
    ensures FieldProblems(fields, input, formats) == []
  {
    if fields != [] {
      OptionalFieldsAllowAbsence(fields[1..], input, formats);
    }
  }

  /** Every update schema rejects an empty body, and only through `.min(1)`. */
  lemma UpdateSchemasRejectEmptyBody(formats: Formats)
    ensures forall s :: s in UPDATE_SCHEMAS ==> Problems(s, map[], formats) == [Problem("", NoKeys)]
  {
    forall s | s in UPDATE_SCHEMAS
      ensures Problems(s, map[], formats) == [Problem("", NoKeys)]
    {
      OptionalFieldsAllowAbsence(s.fields, map[], formats);
      assert ExtraKeys(s, map[]) == {};
    }
  }

  /** A role is accepted exactly when it is absent or converts to 0 or 1. */
  lemma RoleAcceptedIff(body: Obj, formats: Formats)
    ensures FieldProblem(USER_UPDATE_SCHEMA.fields[3], body, formats).None? <==>
      Get(body, "role") == Undefined || NumberOf(Get(body, "role")) in {Some(Roles.USER), Some(Roles.ADMIN)}
    ensures FieldProblem(USER_SCHEMA.fields[3], body, formats).None? <==>
      Get(body, "role") == Undefined || NumberOf(Get(body, "role")) in {Some(Roles.USER), Some(Roles.ADMIN)}
  {
  }

  /** A student body is accepted exactly when its full name is a string of
      2 to 255 UTF-16 code units and it has no other key. */
  lemma StudentBodyAcceptedIff(body: Obj, formats: Formats)
    ensures Accepts(STUDENT_SCHEMA, body, formats) <==>
      && Get(body, "full_name").Str? && 2 <= Utf16Length(Get(body, "full_name").s) <= 255
      && body.Keys <= {"full_name"}
  {
    AcceptsIff(STUDENT_SCHEMA, body, formats);
    assert SchemaKeys(STUDENT_SCHEMA.fields) == {"full_name"};
  }

  /** A sheep body is accepted exactly when its name is a string of 1 to 255
      UTF-16 code units, its age, when given, is a safe integer of at least
      0, and it has no other key. */
  lemma SheepBodyAcceptedIff(body: Obj, formats: Formats)
    ensures Accepts(SHEEP_SCHEMA, body, formats) <==>
      && Get(body, "name").Str? && 1 <= Utf16Length(Get(body, "name").s) <= 255
      && (Get(body, "age") == Undefined ||
          (NumberOf(Get(body, "age")).Some? && 0 <= NumberOf(Get(body, "age")).value <= MAX_SAFE_INTEGER))
      && body.Keys <= {"name", "age"}
  {
    AcceptsIff(SHEEP_SCHEMA, body, formats);
    FieldProblemsEmptyIff(SHEEP_SCHEMA.fields, body, formats);
    assert SchemaKeys(SHEEP_SCHEMA.fields) == {"name", "age"};
  }

  /** An age or an offset past `Number.MAX_SAFE_INTEGER` is refused as
      unsafe (`number.unsafe`), though it is a non-negative integer. */
  lemma UnsafeIntegersRefused(formats: Formats)
    ensures Problems(SHEEP_SCHEMA, map["name" := Str("a"), "age" := Num(MAX_SAFE_INTEGER + 1)], formats)
      == [Problem("age", Unsafe)]
    ensures Problems(PAGINATION_SCHEMA, map["offset" := Num(MAX_SAFE_INTEGER + 1)], formats)
      == [Problem("offset", Unsafe)]
  {
    var sheep := map["name" := Str("a"), "age" := Num(MAX_SAFE_INTEGER + 1)];
    var fields := SHEEP_SCHEMA.fields;
    assert FieldProblem(fields[0], sheep, formats).None?;
    assert FieldProblem(fields[1], sheep, formats) == Some(Unsafe);
    assert fields[1..][1..] == [];
    assert FieldProblems(fields, sheep, formats) == [Problem("age", Unsafe)];
    assert SchemaKeys(fields) == {"name", "age"};
    assert ExtraKeys(SHEEP_SCHEMA, sheep) == {};

    var page := map["offset" := Num(MAX_SAFE_INTEGER + 1)];
    fields := PAGINATION_SCHEMA.fields;
    assert FieldProblem(fields[0], page, formats).None?;
    assert FieldProblem(fields[1], page, formats) == Some(Unsafe);
    assert fields[1..][1..] == [];
    assert FieldProblems(fields, page, formats) == [Problem("offset", Unsafe)];
    assert SchemaKeys(fields) == {"limit", "offset"};
    assert ExtraKeys(PAGINATION_SCHEMA, page) == {};
  }

  /** A feeding time is accepted exactly when it is a string in the ISO
      format or a number whose decimal form is one (`2024`, say); a string
      that is not is a format failure, and anything else a type failure. */
  lemma FeedingTimeAcceptedIff(v: Value, formats: Formats)
    ensures RuleProblem(SHEEP_REPORT_SCHEMA.fields[1].rule, v, formats).None? <==>
      (v.Str? && formats.isIsoDate(v.s)) || (v.Num? && formats.isIsoDate(IntToString(v.n)))
    ensures RuleProblem(SHEEP_REPORT_UPDATE_SCHEMA.fields[1].rule, v, formats).None? <==>
      (v.Str? && formats.isIsoDate(v.s)) || (v.Num? && formats.isIsoDate(IntToString(v.n)))
    ensures v.Str? && !formats.isIsoDate(v.s) ==> RuleProblem(IsoDate, v, formats) == Some(BadFormat)
    ensures !v.Str? && !v.Num? ==> RuleProblem(IsoDate, v, formats) == Some(WrongType)
  {
  }

  /** A new user is accepted exactly when the email has the email format,
      the password has at least 6 UTF-16 code units, the full name 2 to 255,
      the role is absent, 0 or 1, and there is no other key. */
  lemma UserBodyAcceptedIff(body: Obj, formats: Formats)
    ensures Accepts(USER_SCHEMA, body, formats) <==>
      && Get(body, "email").Str? && Get(body, "email").s != "" && formats.isEmail(Get(body, "email").s)
      && Get(body, "password").Str? && Utf16Length(Get(body, "password").s) >= 6
      && Get(body, "full_name").Str? && 2 <= Utf16Length(Get(body, "full_name").s) <= 255
      && (Get(body, "role") == Undefined || NumberOf(Get(body, "role")) in {Some(Roles.USER), Some(Roles.ADMIN)})
      && body.Keys <= {"email", "password", "full_name", "role"}
  {
    AcceptsIff(USER_SCHEMA, body, formats);
    UserFieldsPass(body, formats);
    UserSchemaKeys();
  }

  lemma UserFieldsPass(body: Obj, formats: Formats)
    ensures FieldProblems(USER_SCHEMA.fields, body, formats) == [] <==>
      && Get(body, "email").Str? && Get(body, "email").s != "" && formats.isEmail(Get(body, "email").s)
      && Get(body, "password").Str? && Utf16Length(Get(body, "password").s) >= 6
      && Get(body, "full_name").Str? && 2 <= Utf16Length(Get(body, "full_name").s) <= 255
      && (Get(body, "role") == Undefined || NumberOf(Get(body, "role")) in {Some(Roles.USER), Some(Roles.ADMIN)})
  {
    FieldProblemsEmptyIff(USER_SCHEMA.fields, body, formats);
    assert USER_SCHEMA.fields[0].key == "email" && USER_SCHEMA.fields[1].key == "password";
    assert USER_SCHEMA.fields[2].key == "full_name" && USER_SCHEMA.fields[3].key == "role";
  }

  lemma UserSchemaKeys()
    ensures SchemaKeys(USER_SCHEMA.fields) == {"email", "password", "full_name", "role"}
  {
    var f := USER_SCHEMA.fields;
    assert f[3..][1..] == [];
    assert SchemaKeys(f[3..]) == {"role"};
    assert f[2..][1..] == f[3..];
    assert SchemaKeys(f[2..]) == {"full_name", "role"};
    assert f[1..][1..] == f[2..];
    assert SchemaKeys(f[1..]) == {"password", "full_name", "role"};
  }

  /** A feeding report's status is accepted exactly when it is a string of
      1 to 50 UTF-16 code units, a container's code of 1 to 50 and location
      of 1 to 100, and a report's notes whenever they are a string. */
  lemma TextBounds(v: Value, formats: Formats)
    ensures RuleProblem(SHEEP_REPORT_SCHEMA.fields[2].rule, v, formats).None? <==> v.Str? && 1 <= Utf16Length(v.s) <= 50
    ensures RuleProblem(CONTAINER_SCHEMA.fields[0].rule, v, formats).None? <==> v.Str? && 1 <= Utf16Length(v.s) <= 50
    ensures RuleProblem(CONTAINER_SCHEMA.fields[1].rule, v, formats).None? <==> v.Str? && 1 <= Utf16Length(v.s) <= 100
    ensures RuleProblem(REPORT_SCHEMA.fields[2].rule, v, formats).None? <==> v.Str?
  {
  }

  /** A name of one character outside the Basic Multilingual Plane has
      length 2 in JavaScript, so a student named by a single emoji is
      accepted, while 255 such characters (length 510) are too long. */
  lemma AstralCharactersCountTwice(formats: Formats)
    ensures Accepts(STUDENT_SCHEMA, map["full_name" := Str("\U{1F600}")], formats)
    ensures !Accepts(STUDENT_SCHEMA, map["full_name" := Str(seq(255, i => '\U{1F600}'))], formats)
  {
    var long := seq(255, i => '\U{1F600}');
    StudentBodyAcceptedIff(map["full_name" := Str("\U{1F600}")], formats);
    StudentBodyAcceptedIff(map["full_name" := Str(long)], formats);
    AllAstralLength(long);
  }

  /** A string of characters outside the Basic Multilingual Plane counts two
      code units per character. */
  lemma {:induction false} AllAstralLength(s: string)
    requires forall i :: 0 <= i < |s| ==> s[i] as int > 0xFFFF
    ensures Utf16Length(s) == 2 * |s|
  {
    if s != [] {
      AllAstralLength(s[1..]);
    }
  }

  /** The `:id` validator refuses the parameters of a route that names its
      parameter otherwise: `{ container_id }` lacks `id`, whatever it holds. */
  lemma UuidParamRejectsOtherName(value: Value, formats: Formats)
    ensures Problems(UUID_PARAM_SCHEMA, map["container_id" := value], formats)[0] == Problem("id", Missing)
  {
  }

  /** The parameter schema the `/latest/:container_id` route needs: it
      accepts a container id exactly when it is a UUID. */
  const CONTAINER_PARAM_SCHEMA := Schema([Field("container_id", UuidText, Required)], false)

  lemma ContainerParamAcceptsUuid(u: string, formats: Formats)
    ensures Accepts(CONTAINER_PARAM_SCHEMA, map["container_id" := Str(u)], formats) <==> u != "" && formats.isUuid(u)
  {
    assert SchemaKeys(CONTAINER_PARAM_SCHEMA.fields) == {"container_id"};
  }

  // ------------------------------------------------------------ the validators

  /** Joi stops at the first failure (`abortEarly`), so the details it
      reports are the first problem alone. */
  function Details(problems: seq<Problem>): (details: seq<Problem>)
    ensures problems != [] ==> details == [problems[0]]
    ensures problems == [] ==> details == []
  {
    if problems == [] then [] else problems[..1]
  }

  /** `error.details.map(detail => detail.message).join(', ')`, where
      `describe` stands for Joi's message text. */
  function ErrorText(details: seq<Problem>, describe: Problem -> string): string
  {
    Join(seq(|details|, i requires 0 <= i < |details| => describe(details[i])), ", ")
  }

  /** The reply of a validator that found a problem. */
  function Rejection(problems: seq<Problem>, describe: Problem -> string): Reply
  {
    Reply(400, map["error" := Str(ErrorText(Details(problems), describe))])
  }

  /** The rejection names the first problem's message, and only it. */
  lemma RejectionNamesFirstProblem(problems: seq<Problem>, describe: Problem -> string)
    requires problems != []
    ensures Rejection(problems, describe) == Reply(400, map["error" := Str(describe(problems[0]))])
  {
    var texts := seq(1, i requires 0 <= i < 1 => describe(problems[0]));
    assert Details(problems) == [problems[0]];
    assert texts == [describe(problems[0])];
  }

  /** Every body and parameter validator (`validateUser`, ...,
      `validateUuidParam`): with a problem it answers 400 and does not call
      `next`; without one it calls `next` and leaves the response alone.
      Joi's converted value (a role default, for one) is discarded, and the
      request is not among what the validator may modify. */
  method Validate(schema: Schema, input: Obj, formats: Formats, describe: Problem -> string, res: Response)
    returns (calledNext: bool)
    modifies res
    ensures calledNext <==> Accepts(schema, input, formats)
    ensures !calledNext ==> res.sent == Some(Rejection(Problems(schema, input, formats), describe))
    ensures calledNext ==> res.sent == old(res.sent) && res.statusCode == old(res.statusCode)
  {
    var problems := Problems(schema, input, formats);
    if problems != [] {
      res.Send(400, map["error" := Str(ErrorText(Details(problems), describe))]);
      return false;
    }
    calledNext := true;
  }

  /** The value Joi returns for one field of an accepted input: the
      converted number, or the default when the field is absent. */
  function Converted(field: Field, input: Obj): Value
  {
    var v := Get(input, field.key);
    if v == Undefined then (if field.presence.Default? then field.presence.value else Undefined)
    else if NumberOf(v).Some? then Num(NumberOf(v).value) else v
  }

  /** `{ ...req.query, ...value }` for the pagination schema. */
  function Paginated(query: Obj): Obj
  {
    query["limit" := Converted(PAGINATION_SCHEMA.fields[0], query)]["offset" := Converted(PAGINATION_SCHEMA.fields[1], query)]
  }

  /** `validatePagination`: on a problem, 400 and the query is left alone;
      otherwise the query is replaced by its merge with the validated
      values and `next` is called. */
  method ValidatePagination(req: Request, res: Response, describe: Problem -> string, formats: Formats)
    returns (calledNext: bool)
    modifies req, res
    ensures calledNext <==> Accepts(PAGINATION_SCHEMA, old(req.query), formats)
    ensures !calledNext ==>
      && req.query == old(req.query)
      && res.sent == Some(Rejection(Problems(PAGINATION_SCHEMA, old(req.query), formats), describe))
    ensures calledNext ==>
      && req.query == Paginated(old(req.query))
      && res.sent == old(res.sent) && res.statusCode == old(res.statusCode)
    ensures req.authorization == old(req.authorization) && req.user == old(req.user)
  {
    var problems := Problems(PAGINATION_SCHEMA, req.query, formats);
    if problems != [] {
      res.Send(400, map["error" := Str(ErrorText(Details(problems), describe))]);
      return false;
    }
    var value := map["limit" := Converted(PAGINATION_SCHEMA.fields[0], req.query),
                     "offset" := Converted(PAGINATION_SCHEMA.fields[1], req.query)];
    assert req.query + value == Paginated(req.query);
    req.query := req.query + value;
    calledNext := true;
  }

  /** After `validatePagination` lets a request through, its query holds a
      limit between 1 and 100 (50 when it was absent), an offset of at
      least 0 (0 when it was absent) and at most `Number.MAX_SAFE_INTEGER`,
      and no other parameter: any other query key was refused with 400. */
  lemma PaginatedQueryInRange(query: Obj, formats: Formats)
    requires Accepts(PAGINATION_SCHEMA, query, formats)
    ensures var q := Paginated(query);
      && Get(q, "limit").Num? && 1 <= Get(q, "limit").n <= MAX_LIMIT
      && Get(q, "offset").Num? && 0 <= Get(q, "offset").n <= MAX_SAFE_INTEGER
      && (Get(query, "limit") == Undefined ==> Get(q, "limit") == Num(DEFAULT_LIMIT))
      && (Get(query, "offset") == Undefined ==> Get(q, "offset") == Num(0))
      && q.Keys == {"limit", "offset"}
  {
    FieldProblemsEmptyIff(PAGINATION_SCHEMA.fields, query, formats);
    assert FieldProblem(PAGINATION_SCHEMA.fields[0], query, formats).None?;
    assert FieldProblem(PAGINATION_SCHEMA.fields[1], query, formats).None?;
  }
}
