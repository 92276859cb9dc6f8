/** The user handlers, including login. Each takes the request's fields and
    what every awaited call resolves to, and returns the reply it sends and
    the write it issues. */
module UserController {
  import opened Js
  import opened Sql
  import opened Http
  import opened Store
  import opened UserModel
  import Roles

  const DEFAULT_LIMIT := 50
  const NOT_FOUND := "User not found"
  const EMAIL_TAKEN := "User with this email already exists"
  const ROLE_NOT_ADMIN := "Invalid role. Must be Admin"
  const CREATED := "User created successfully"
  const DELETED := "User deleted successfully"
  const OWN_ACCOUNT := "You cannot delete your own account"
  const BAD_CREDENTIALS := "Invalid email or password"

  /** `getAll`: the limit defaults to 50 and is not capped; the total counts
      every user. */
  method GetAll(limit: Option<int>, offset: Option<int>, rows: Outcome<seq<Value>>, total: Outcome<int>)
    returns (reply: Reply, page: SelectStatement)
    ensures var l, o := QueryInt(limit, DEFAULT_LIMIT), QueryInt(offset, 0);
      && page == PageSpec([], map[], l, o)
      && (rows.Done? && total.Done? ==>
            reply == Reply(200, map["data" := Object(map["users" := Arr(rows.result),
                                                         "pagination" := Pagination(total.result, l, o)])]))
      && (rows.Threw? || total.Threw? ==> reply == ErrorReply(500, INTERNAL_ERROR))
  {
    var parsedLimit := QueryInt(limit, DEFAULT_LIMIT);
    var parsedOffset := QueryInt(offset, 0);
    page := User.FindAll(parsedLimit, parsedOffset);
    if rows.Threw? || total.Threw? {
      return ErrorReply(500, INTERNAL_ERROR), page;
    }
    var pagination := Pagination(total.result, parsedLimit, parsedOffset);
    reply := Reply(200, map["data" := Object(map["users" := Arr(rows.result), "pagination" := pagination])]);
  }

  /** The role `create` works with: the body's, or USER when it is undefined. */
  function RequestedRole(body: Obj): (role: Value)
    ensures Get(body, "role") == Undefined ==> role == Num(Roles.USER)
    ensures Get(body, "role") != Undefined ==> role == Get(body, "role")
  {
    if Get(body, "role") == Undefined then Num(Roles.USER) else Get(body, "role")
  }

  /** `create` as written: a taken email is refused with 400 and any role
      but ADMIN (the default USER included) with 403. A request that passes
      both checks reaches `hashPassword`, which the module never imports,
      and assigns to an undeclared variable, so it throws and ends in the
      catch: no request ever creates a user. */
  method Create(body: Obj, byEmail: Lookup) returns (reply: Reply, write: Write)
    ensures write == NoWrite && reply.status != 201
    ensures byEmail.Fails? ==> reply == ErrorReply(500, INTERNAL_ERROR)
    ensures byEmail.Found? ==> reply == ErrorReply(400, EMAIL_TAKEN)
    ensures byEmail.Missing? && RequestedRole(body) != Num(Roles.ADMIN) ==> reply == ErrorReply(403, ROLE_NOT_ADMIN)
    ensures byEmail.Missing? && RequestedRole(body) == Num(Roles.ADMIN) ==> reply == ErrorReply(500, INTERNAL_ERROR)
  {
    write := NoWrite;
    if byEmail.Fails? {
      return ErrorReply(500, INTERNAL_ERROR), write;
    }
    if byEmail.Found? {
      return ErrorReply(400, EMAIL_TAKEN), write;
    }
    var role := RequestedRole(body);
    if role != Num(Roles.ADMIN) {
      return ErrorReply(403, ROLE_NOT_ADMIN), write;
    }
    // `hashedPassword = await hashPassword(password)` throws a ReferenceError.
    reply := ErrorReply(500, INTERNAL_ERROR);
  }

  /** `create` as its checks and its 201 reply intend: the same refusals,
      then the user is built and saved through the model, whose `save()`
      stores the password as its hash (exactly once), with the caller as
      author, falling back through the constructor's default to the row's
      own id. */
  method CreateCorrected(body: Obj, user: Option<Obj>, byEmail: Lookup, freshId: string, saved: Outcome<Value>)
    returns (reply: Reply, write: Write)
    requires freshId != ""
    ensures byEmail.Fails? ==> reply == ErrorReply(500, INTERNAL_ERROR) && write == NoWrite
    ensures byEmail.Found? ==> reply == ErrorReply(400, EMAIL_TAKEN) && write == NoWrite
    ensures byEmail.Missing? && RequestedRole(body) != Num(Roles.ADMIN) ==>
      reply == ErrorReply(403, ROLE_NOT_ADMIN) && write == NoWrite
    ensures byEmail.Missing? && RequestedRole(body) == Num(Roles.ADMIN) ==>
      var author := if user.Some? && Truthy(Get(user.value, "id")) then Get(user.value, "id") else Str(freshId);
      && write == Insert([Bind(Str(freshId)), Bind(Get(body, "email")), HashOf(Get(body, "password")),
                          Bind(Get(body, "full_name")), Bind(Num(Roles.ADMIN)), Bind(author), Bind(author)])
      && reply == (if saved.Done? then MessageReply(201, CREATED) else ErrorReply(500, INTERNAL_ERROR))
  {
    if byEmail.Fails? {
      return ErrorReply(500, INTERNAL_ERROR), NoWrite;
    }
    if byEmail.Found? {
      return ErrorReply(400, EMAIL_TAKEN), NoWrite;
    }
    var role := RequestedRole(body);
    if role != Num(Roles.ADMIN) {
      return ErrorReply(403, ROLE_NOT_ADMIN), NoWrite;
    }
    var userData := map[
      "email" := Get(body, "email"),
      "password" := Get(body, "password"),
      "full_name" := Get(body, "full_name"),
      "role" := role,
      "created_by" := Actor(user, Null),
      "modified_by" := Actor(user, Null)
    ];
    var newUser := new User(userData, freshId);
    var values := newUser.Save();
    write := Insert(values);
    reply := if saved.Done? then MessageReply(201, CREATED) else ErrorReply(500, INTERNAL_ERROR);
  }

  /** `update`: 404 when the user is missing; a role other than undefined
      must be ADMIN or the request is refused with 403 before any write;
      email, password and full_name are copied when truthy; the author is
      the caller or else the updated user itself. */
  method Update(id: string, body: Obj, user: Option<Obj>, existing: Lookup, updated: Outcome<Value>)
    returns (reply: Reply, write: Write)
    ensures existing.Fails? ==> reply == ErrorReply(500, INTERNAL_ERROR) && write == NoWrite
    ensures existing.Missing? ==> reply == ErrorReply(404, NOT_FOUND) && write == NoWrite
    ensures existing.Found? && Get(body, "role") != Undefined && Get(body, "role") != Num(Roles.ADMIN) ==>
      reply == ErrorReply(403, ROLE_NOT_ADMIN) && write == NoWrite
    ensures existing.Found? && (Get(body, "role") == Undefined || Get(body, "role") == Num(Roles.ADMIN)) ==>
      && write.Modify? && write.id == id
      && CopiedFrom(write.data, body, {"email", "password", "full_name"}, {"role"})
      && write.modifiedBy == Actor(user, Str(id))
      && reply == (if updated.Done? then Reply(200, map["data" := updated.result]) else ErrorReply(500, INTERNAL_ERROR))
  {
    if existing.Fails? {
      return ErrorReply(500, INTERNAL_ERROR), NoWrite;
    }
    if existing.Missing? {
      return ErrorReply(404, NOT_FOUND), NoWrite;
    }
    var updateData: Obj := map[];
    updateData := CopyWhenTruthy(updateData, body, "email", {}, {});
    updateData := CopyWhenTruthy(updateData, body, "password", {"email"}, {});
    updateData := CopyWhenTruthy(updateData, body, "full_name", {"email", "password"}, {});
    if Get(body, "role") != Undefined && Get(body, "role") != Num(Roles.ADMIN) {
      return ErrorReply(403, ROLE_NOT_ADMIN), NoWrite;
    }
    updateData := CopyWhenDefined(updateData, body, "role", {"email", "password", "full_name"}, {});
    write := Modify(id, updateData, Actor(user, Str(id)));
    reply := if updated.Done? then Reply(200, map["data" := updated.result]) else ErrorReply(500, INTERNAL_ERROR);
  }

  /** An accepted update request reaches the table as: email and full_name
      when truthy, the password when truthy and then only as its hash, and
      the role only when given, which can then only be ADMIN. */
  lemma UpdateStatementOfRequest(id: string, body: Obj, data: Obj, modifiedBy: Value)
    requires CopiedFrom(data, body, {"email", "password", "full_name"}, {"role"})
    requires Get(body, "role") == Undefined || Get(body, "role") == Num(Roles.ADMIN)
    ensures var st := UpdateSpec(UPDATE_RULES, data, modifiedBy, id);
      && WellNumbered(st)
      && (Assigns(st, "email") <==> Truthy(Get(body, "email")))
      && (Assigns(st, "full_name") <==> Truthy(Get(body, "full_name")))
      && (Assigns(st, "password") <==> Truthy(Get(body, "password")))
      && (Truthy(Get(body, "password")) ==> HashOf(Get(body, "password")) in st.values)
      && (Assigns(st, "role") ==> Get(body, "role") == Num(Roles.ADMIN))
  {
    UpdateWritesGivenFields(data, modifiedBy, id);
    UpdateHashesPassword(data, modifiedBy, id);
    if "email" in data { assert Get(data, "email") == Get(body, "email"); }
    if "full_name" in data { assert Get(data, "full_name") == Get(body, "full_name"); }
    if "password" in data { assert Get(data, "password") == Get(body, "password"); }
    if "role" in data { assert Get(data, "role") == Get(body, "role"); }
  }

  /** `req.user.id === parseInt(id)` as written: strict equality between
      the caller's id and a number, or NaN (None), which equals nothing. */
  predicate IsOwnAccount(actorId: Value, id: string)
  {
    match ParseInt(id)
    case Some(n) => actorId == Num(n)
    case None => false
  }

  /** The guard as intended: the caller's id is the id in the path. */
  predicate IsOwnAccountCorrected(actorId: Value, id: string)
  {
    actorId == Str(id)
  }

  /** User ids are uuid strings, and a string is never strictly equal to a
      number: the guard as written lets an administrator's own id through,
      the corrected guard stops it, and the two agree on everyone else. */
  lemma OwnAccountGuardMissesStringIds(actorId: string, id: string)
    ensures !IsOwnAccount(Str(actorId), id)
    ensures IsOwnAccountCorrected(Str(actorId), id) <==> actorId == id
  {
  }

  /** `delete` as written: 404 when missing; an absent `req.user` throws
      reading its id and ends in the 500 catch; otherwise the guard above
      runs, and since it never matches a string id, a caller whose id is the
      path's own id deletes their own account. */
  method Delete(id: string, user: Option<Obj>, existing: Lookup, deleted: Outcome<Value>)
    returns (reply: Reply, write: Write)
    ensures existing.Fails? ==> reply == ErrorReply(500, INTERNAL_ERROR) && write == NoWrite
    ensures existing.Missing? ==> reply == ErrorReply(404, NOT_FOUND) && write == NoWrite
    ensures existing.Found? && user.None? ==> reply == ErrorReply(500, INTERNAL_ERROR) && write == NoWrite
    ensures existing.Found? && user.Some? ==>
      if IsOwnAccount(Get(user.value, "id"), id) then reply == ErrorReply(400, OWN_ACCOUNT) && write == NoWrite
      else write == Remove(id) && reply == (if deleted.Done? then MessageReply(200, DELETED) else ErrorReply(500, INTERNAL_ERROR))
    ensures existing.Found? && user.Some? && Get(user.value, "id") == Str(id) ==> write == Remove(id)
  {
    if existing.Fails? {
      return ErrorReply(500, INTERNAL_ERROR), NoWrite;
    }
    if existing.Missing? {
      return ErrorReply(404, NOT_FOUND), NoWrite;
    }
    if user.None? {
      return ErrorReply(500, INTERNAL_ERROR), NoWrite;
    }
    if IsOwnAccount(Get(user.value, "id"), id) {
      return ErrorReply(400, OWN_ACCOUNT), NoWrite;
    }
    write := Remove(id);
    reply := if deleted.Done? then MessageReply(200, DELETED) else ErrorReply(500, INTERNAL_ERROR);
  }

  /** `delete` with the corrected guard: the caller's own account is never
      removed. */
  method DeleteCorrected(id: string, user: Option<Obj>, existing: Lookup, deleted: Outcome<Value>)
    returns (reply: Reply, write: Write)
    ensures existing.Fails? ==> reply == ErrorReply(500, INTERNAL_ERROR) && write == NoWrite
    ensures existing.Missing? ==> reply == ErrorReply(404, NOT_FOUND) && write == NoWrite
    ensures existing.Found? && user.None? ==> reply == ErrorReply(500, INTERNAL_ERROR) && write == NoWrite
    ensures existing.Found? && user.Some? && Get(user.value, "id") == Str(id) ==>
      reply == ErrorReply(400, OWN_ACCOUNT) && write == NoWrite
    ensures existing.Found? && user.Some? && Get(user.value, "id") != Str(id) ==>
      write == Remove(id) && reply == (if deleted.Done? then MessageReply(200, DELETED) else ErrorReply(500, INTERNAL_ERROR))
  {
    if existing.Fails? {
      return ErrorReply(500, INTERNAL_ERROR), NoWrite;
    }
    if existing.Missing? {
      return ErrorReply(404, NOT_FOUND), NoWrite;
    }
    if user.None? {
      return ErrorReply(500, INTERNAL_ERROR), NoWrite;
    }
    if IsOwnAccountCorrected(Get(user.value, "id"), id) {
      return ErrorReply(400, OWN_ACCOUNT), NoWrite;
    }
    write := Remove(id);
    reply := if deleted.Done? then MessageReply(200, DELETED) else ErrorReply(500, INTERNAL_ERROR);
  }

  /** The claims `login` signs: the user's id, email, full name and role. */
  function TokenClaims(row: Obj): (claims: Obj)
    ensures claims.Keys == {"id", "email", "full_name", "role"}
    ensures forall k :: k in claims ==> claims[k] == Get(row, k)
  {
    map["id" := Get(row, "id"), "email" := Get(row, "email"), "full_name" := Get(row, "full_name"), "role" := Get(row, "role")]
  }

  /** `login`: `byEmail` is the `SELECT *` row (password hash included),
      `compare` stands for `comparePassword(plain, hash)` and `sign` for
      `generateToken(claims)`. An unknown email and a wrong password get the
      same 401 reply; on success the reply carries only the signed token. */
  method Login(body: Obj, byEmail: Lookup, compare: (Value, Value) -> Outcome<bool>, sign: Obj -> Outcome<Value>)
    returns (reply: Reply)
    ensures byEmail.Fails? ==> reply == ErrorReply(500, INTERNAL_ERROR)
    ensures byEmail.Missing? ==> reply == ErrorReply(401, BAD_CREDENTIALS)
    ensures byEmail.Found? ==>
      var verdict := compare(Get(body, "password"), Get(byEmail.row, "password"));
      var token := sign(TokenClaims(byEmail.row));
      && (verdict.Threw? ==> reply == ErrorReply(500, INTERNAL_ERROR))
      && (verdict == Done(false) ==> reply == ErrorReply(401, BAD_CREDENTIALS))
      && (verdict == Done(true) && token.Done? ==> reply == Reply(200, map["access_token" := token.result]))
      && (verdict == Done(true) && token.Threw? ==> reply == ErrorReply(500, INTERNAL_ERROR))
  {
    if byEmail.Fails? {
      return ErrorReply(500, INTERNAL_ERROR);
    }
    if byEmail.Missing? {
      return ErrorReply(401, BAD_CREDENTIALS);
    }
    var isValidPassword := compare(Get(body, "password"), Get(byEmail.row, "password"));
    if isValidPassword.Threw? {
      return ErrorReply(500, INTERNAL_ERROR);
    }
    if !isValidPassword.result {
      return ErrorReply(401, BAD_CREDENTIALS);
    }
    var token := sign(TokenClaims(byEmail.row));
    reply := if token.Done? then Reply(200, map["access_token" := token.result]) else ErrorReply(500, INTERNAL_ERROR);
  }

  /** The row `login` reads is the only user row that carries the password
      hash, and the claims it signs leave the hash out. */
  lemma LoginSignsNoPassword(row: Obj)
    ensures "password" in Projection(FindByEmail)
    ensures "password" !in TokenClaims(row)
    ensures TokenClaims(row)["role"] == Get(row, "role")
  {
  }
}
