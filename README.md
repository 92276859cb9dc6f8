# damayanti-api in Dafny

A model of the request-handling core of the damayanti-api, an Express
REST API over PostgreSQL. The API manages users, composting containers,
sensor readings, reports, students, sheep and sheep feeding reports.
The model covers these parts:

- **Role constants.** `Roles` holds the numeric roles, `isAdmin`, `isUser` and `getRoleName`.
- **Reply helpers.** `Responses` holds `sendSuccess` and `sendError`.
- **Auth middleware.** `Auth` models `authMiddleware`, `adminMiddleware` and `optionalAuth`. The bearer token is pulled out with `String.replace`. Token verification and the user lookup are oracles.
- **Validation.** `Validation` models the Joi schemas and the `validate*` middleware. The body is checked against a schema: each field's rule (string lengths in UTF-16 code units, as JavaScript measures them), then any key the schema does not declare, then `.min(1)`. A number beyond `Number.MAX_SAFE_INTEGER` fails `number()` itself (`number.unsafe`), and `date().iso()` also takes a number whose decimal form is an ISO date. Joi stops at the first problem by default (`abortEarly`), so the error details hold that one problem, and its message alone becomes the 400 reply. `validatePagination` also writes the converted `limit` and `offset` back into `req.query`.
- **Error handling.** `ErrorHandler` models the `errorHandler` and `notFound` middleware. The PostgreSQL SQLSTATEs and the JWT and validation error names are mapped to a status and a message.
- **Models.** There are seven, from `UserModel` to `SheepReportModel`. Each is a class with the row's fields. Its constructor applies the source's defaults, and its static methods build the parameterised statements the source sends. A statement is a structural value: the columns, the conditions, the `$n` placeholder numbers and the bound values, with no SQL text.
- **Controllers.** There are seven, from `UserController` to `SheepReportController`. A handler is a method that takes what each awaited call resolved to (a `Lookup` or an `Outcome`). It returns the reply it sends and the write it issues to the store.

`Js` models the JavaScript values the code handles, with truthiness, `||`, `?.`,
`parseInt` on decimal text, `indexOf`, `includes` and `replace`. `Sql`
defines reference specifications for the two loops every model repeats:

- the `SET` list of an update, built from the fields that are present;
- the `WHERE` list of a filtered select, built from the filters that are truthy.

Each model's straight-line builder is proved equal to them. `Store` holds the
reply shapes, the actor fallback (`req.user?.id || …`) and the pagination
object.

## Model

| member | source | states |
|---|---|---|
| Roles.IsAdmin | src/constants/roles.js:14-15 | no role is both admin and user |
| Roles.RoleNamesOfTheTwoRoles | src/constants/roles.js:8-11 | role 0 is named "User" and role 1 "Admin" |
| Roles.RoleNameOfOtherNumbers | src/constants/roles.js:16 | any other number is named "Unknown" |
| Roles.RoleNameAgreesWithPredicates | src/constants/roles.js:14-16 | on numbers, the name is "Admin" exactly when `isAdmin` holds and "User" exactly when `isUser` holds |
| Roles.RoleNameLooserThanIsAdmin | src/constants/roles.js:14-16 | the string "1" is named "Admin" by the property lookup, but `isAdmin` rejects it (strict equality) |
| Responses.SuccessBody | src/utils/responses.js:5-15 | the body has `data` exactly when data is not null, and `message` exactly when message is not null, and no other key |
| Responses.SendSuccess | src/utils/responses.js:5-17 | the status defaults to 200, and the body sent is the success body of the given data and message, with no other key |
| Responses.ErrorField | src/utils/responses.js:19-23 | a string error is sent as-is; an object sends its truthy message or "Internal Server Error"; null or undefined throws |
| Responses.SendError | src/utils/responses.js:19-23 | the status defaults to 500; the reply is `{error}` as above, and nothing is sent when reading `.message` throws |
| Auth.ExtractToken | src/middleware/auth.js:7 | a token is extracted exactly when the header is present |
| Auth.BearerHeaderToken | src/middleware/auth.js:7 | `Bearer <t>` yields t |
| Auth.HeaderWithoutBearerIsToken | src/middleware/auth.js:7 | a header without "Bearer " is used whole as the token |
| Auth.BearerRemovedAnywhere | src/middleware/auth.js:7 | the first "Bearer " is removed wherever it occurs, not only at the start |
| Auth.Authenticate | src/middleware/auth.js:5-32 | every refusal is a 401; an admitted request carries a token |
| Auth.NoTokenIsRefused | src/middleware/auth.js:9-13 | a missing header, or one that is only "Bearer ", is refused with "Access denied. No token provided." by both middlewares |
| Auth.BareBearerIsRefused | src/middleware/auth.js:7-13 | the header "Bearer " alone is refused as carrying no token |
| Auth.BadTokenAndUnknownUser | src/middleware/auth.js:15-31 | a token that fails to verify answers "Invalid token."; a verified token whose user is missing answers "Invalid token. User not found." |
| Auth.AdmitsIff | src/middleware/auth.js:7-25 | a request is admitted if and only if it has a token that verifies to a payload with an id that finds a user, and that user is attached |
| Auth.AuthorizeAdmin | src/middleware/auth.js:34-58 | admits only authenticated admins; authentication refusals pass through unchanged; a non-admin user gets 403 |
| Auth.AdminIff | src/middleware/auth.js:34-58 | the admin gate admits if and only if authentication admits and the role is the number 1; otherwise 401 when unauthenticated, else 403 |
| Auth.AuthMiddleware | src/middleware/auth.js:5-32 | calls next exactly when admitted, with `req.user` set and nothing sent; otherwise sends the refusal and leaves `req.user` |
| Auth.AdminMiddleware | src/middleware/auth.js:34-58 | calls next exactly when the admin gate admits; otherwise sends the gate's refusal; the user is attached on an admitted token and left alone on a refused one; the header and query are untouched |
| Auth.OptionalAuth | src/middleware/auth.js:60-78 | always calls next and never sends; attaches the user only when authentication admits; the header and query are untouched |
| Validation.NumberOf | src/middleware/validation.js:9 | a number is its own value; a value that is neither number nor string is not a number |
| Validation.FieldProblems | src/middleware/validation.js:5-99 | at most one problem per field |
| Validation.FieldProblemsEmptyIff | src/middleware/validation.js:5-99 | a body has no field problems exactly when every field passes its own rule |
| Validation.OptionalFieldsAllowAbsence | src/middleware/validation.js:12-17 | a body leaving out only optional fields raises no field problem |
| Validation.UpdateSchemasRejectEmptyBody | src/middleware/validation.js:12-89 | every update schema (`.min(1)`) rejects `{}`, and with exactly one problem |
| Validation.RoleAcceptedIff | src/middleware/validation.js:9-16 | a role is accepted exactly when absent or convertible to 0 or 1 |
| Validation.StudentBodyAcceptedIff | src/middleware/validation.js:61-63 | a student body is accepted exactly when full_name is a string of 2 to 255 UTF-16 code units and no other key is present |
| Validation.SheepBodyAcceptedIff | src/middleware/validation.js:69-72 | a sheep body is accepted exactly when name has 1 to 255 UTF-16 code units, age is absent or an integer from 0 to `Number.MAX_SAFE_INTEGER`, and no other key is present |
| Validation.UnsafeIntegersRefused | src/middleware/validation.js:71 | an age, or a pagination offset, of 2^53 (one past `Number.MAX_SAFE_INTEGER`) is refused with Joi's `number.unsafe`, its only problem |
| Validation.FeedingTimeAcceptedIff | src/middleware/validation.js:79-89 | a feeding time passes `date().iso()` exactly when it is an ISO string or a number whose decimal form is ISO; other strings fail the format, other values the type |
| Validation.UserBodyAcceptedIff | src/middleware/validation.js:5-10 | a user body is accepted exactly when the email is valid, the password has at least 6 UTF-16 code units, full_name has 2 to 255, the role is absent, 0 or 1, and no other key is present |
| Validation.TextBounds | src/middleware/validation.js:20-82 | the code, location, status and notes rules accept exactly the strings whose UTF-16 length is within their bounds (notes: any string, empty included) |
| Validation.AstralCharactersCountTwice | src/middleware/validation.js:61-63 | a character outside the Basic Multilingual Plane counts 2 towards a length bound: one emoji is a valid full_name, 255 of them are too long |
| Js.Utf16Length | src/middleware/validation.js:7-8 | a string's JavaScript length, which Joi's `min` and `max` compare, lies between its character count and twice that, and equals the character count when no character lies outside the Basic Multilingual Plane |
| Validation.AcceptsIff | src/middleware/validation.js:5-99 | an input is accepted exactly when every field passes, no key is undeclared, and `.min(1)` is met where the schema has it |
| Validation.SchemaKeys | src/middleware/validation.js:5-99 | the keys a schema declares are exactly its fields' keys |
| Validation.ExtraKeys | src/middleware/validation.js:5-99 | the keys Joi refuses are exactly the input's keys the schema does not declare |
| Validation.UuidParamRejectsOtherName | src/middleware/validation.js:92-94 | parameters named `container_id` fail the `:id` schema with a missing `id`, whatever they hold |
| Validation.ContainerParamAcceptsUuid | src/middleware/validation.js:92-94 | a schema over `container_id` accepts exactly a non-empty UUID |
| Validation.Details | src/middleware/validation.js:103-106 | validation stops at the first problem, so the details list is that one problem or empty |
| Validation.RejectionNamesFirstProblem | src/middleware/validation.js:103-107 | a rejected body is answered 400 with the message of its first problem |
| Validation.Validate | src/middleware/validation.js:102-251 | calls next exactly when the schema accepts the input; otherwise sends the 400 rejection; the request is not touched |
| Validation.ValidatePagination | src/middleware/validation.js:253-262 | calls next exactly when the query passes; then `req.query` gains the converted limit and offset; otherwise the query is left and 400 is sent |
| Validation.PaginatedQueryInRange | src/middleware/validation.js:96-99 | after a pass, limit lies in 1..100 (default 50), offset lies in 0..`Number.MAX_SAFE_INTEGER` (default 0), and the query holds no other key, since any other key is refused |
| ErrorHandler.Messages | src/middleware/errorHandler.js:53-56 | one message per entry of `err.errors`, in order; none when an entry is null or undefined, where reading `.message` throws |
| ErrorHandler.HandleError | src/middleware/errorHandler.js:1-61 | the sequential overwrites send the reply of the priority specification, where the last matching check wins; it throws and sends nothing exactly when a ValidationError's `errors` is missing or holds a null or undefined entry |
| ErrorHandler.ConstraintCodesAnswer400 | src/middleware/errorHandler.js:17-39 | SQLSTATEs 23505, 23503, 23502 and 23514 each answer 400 with their fixed message |
| ErrorHandler.TokenErrorsAnswer401 | src/middleware/errorHandler.js:41-50 | JsonWebTokenError and TokenExpiredError answer 401, whatever the error's code |
| ErrorHandler.ValidationErrorListsMessages | src/middleware/errorHandler.js:52-56 | a ValidationError answers 400 with the list of its messages, and answers nothing when `errors` is missing or holds a null or undefined entry |
| ErrorHandler.UnmatchedErrorKeepsItsOwn | src/middleware/errorHandler.js:14-60 | any other error answers with its own non-zero status or 500, and its truthy message or "Internal Server Error" |
| ErrorHandler.EveryAnswerNamesAnError | src/middleware/errorHandler.js:53-60 | every reply has a non-zero status and a single truthy `error` key, and only a ValidationError can leave the handler without a reply |
| ErrorHandler.NotFound | src/middleware/errorHandler.js:63-67 | sets 404, sends nothing, and forwards an error without a status code |
| ErrorHandler.NotFoundAnswers500 | src/middleware/errorHandler.js:58-67 | the forwarded not-found error (a path outside /api) is answered with 500 |
| ErrorHandler.NotFoundCorrected | src/middleware/errorHandler.js:63-67 | forwards the not-found error with status 404 attached |
| ErrorHandler.NotFoundCorrectedAnswers404 | src/middleware/errorHandler.js:58-67 | with the status attached, a path that reaches `notFound` is answered with 404 |
| Sql.SetItemsNumbered | src/models/SensorData.js:70-100 | the i-th SET item assigns the i-th present field to placeholder i+1 and binds its value |
| Sql.WrittenIff | src/models/SensorData.js:75-98 | a field is written exactly when its rule is in the list and the field is present (truthy or defined, as the rule says) |
| Sql.UpdateSpecWellNumbered | src/models/SensorData.js:70-112 | the statement is well numbered; modified_by is the next-to-last value and the id the last; it sets only the given fields |
| Sql.UpdateSpecAssignsIff | src/models/SensorData.js:70-112 | a column is assigned exactly when its field is present; modified_by and modified_at are always assigned |
| Sql.UpdateSpecWritesExactlyGiven | src/models/SensorData.js:70-112 | all of the above at once, for every rule |
| Sql.UpdateSpecAssignsOnlyRuleColumns | src/models/SensorData.js:70-112 | a column without a rule is never assigned |
| Sql.WhereNumbered | src/models/SensorData.js:19-47 | the i-th condition tests the i-th truthy filter against placeholder i+1 and binds its value |
| Sql.AppliedIff | src/models/SensorData.js:29-40 | a filter is applied exactly when its rule is listed and its value is truthy |
| Sql.WhereIgnoresOtherKeys | src/models/SensorData.js:29-40 | keys without a rule do not change the WHERE list |
| Sql.WhereReadsOnlyRuleKeys | src/models/SensorData.js:29-40 | filter objects that agree on the rule keys give the same WHERE list |
| Sql.PageSpecShape | src/models/SensorData.js:19-47 | a page is the count's conditions and parameters followed by LIMIT at n+1 and OFFSET at n+2 |
| Store.DeleteFailure | src/controllers/StudentController.js:108-117 | a foreign-key violation message gives 400, any other 500 |
| Store.DeleteFailureStatus | src/controllers/ContainerController.js:125-132 | the constraint text is recognised wherever it occurs in the message |
| Store.Actor | src/controllers/SheepController.js:75-76 | the user's truthy id, else the fallback |
| Store.QueryInt | src/controllers/UserController.js:9-10 | an absent query parameter takes its default |
| Store.ClampLimit | src/controllers/ContainerController.js:7 | the limit never exceeds 100 and is unchanged below it |
| Store.Pagination | src/controllers/ContainerController.js:13-18 | the object holds total, limit and offset, and hasMore is offset + limit < total |
| Store.PageOf | src/models/Container.js:14-20 | a page holds at most limit rows, and exactly limit when enough rows follow the offset |
| Store.HasMoreIffRowsAfterPage | src/controllers/ContainerController.js:17 | hasMore holds exactly when rows remain after the returned page |
| UserModel.Projection | src/models/User.js:19-41 | only findByEmail selects the password column; every query selects the public columns |
| UserModel.User.constructor | src/models/User.js:7-17 | the role defaults to user only when undefined; created_by and modified_by default to the id |
| UserModel.User.Save | src/models/User.js:43-52 | the insert binds the fields in column order, and only the password column is hashed |
| UserModel.User.IsAdmin | src/models/User.js:115-122 | no user is both admin and user |
| UserModel.User.FindAll | src/models/User.js:19-25 | an unfiltered page: LIMIT $1, OFFSET $2 |
| UserModel.User.Update | src/models/User.js:54-89 | the statement is the reference update for the user rules |
| UserModel.UpdateWritesGivenFields | src/models/User.js:59-84 | email, full_name and password are set when truthy and role when defined, then modified_by and the id |
| UserModel.UpdateHashesPassword | src/models/User.js:67-71 | the password is only ever written as its hash |
| ContainerModel.Container.constructor | src/models/Container.js:5-12 | audit fields default to the id and are truthy |
| ContainerModel.Container.Save | src/models/Container.js:38-46 | each placeholder of the INSERT binds the field of the column it fills, for every column named |
| ContainerModel.Container.FindAll | src/models/Container.js:14-20 | an unfiltered page: LIMIT $1, OFFSET $2 |
| ContainerModel.Container.Update | src/models/Container.js:48-70 | the reference update for the container rules |
| ContainerModel.UpdateWritesGivenFields | src/models/Container.js:53-66 | code is set exactly when truthy; modified_by and the id close the statement |
| SheepModel.Sheep.constructor | src/models/Sheep.js:5-13 | a falsy age becomes 0; audit fields are copied without a default |
| SheepModel.Sheep.Save | src/models/Sheep.js:39-47 | each placeholder of the INSERT binds the field of the column it fills, for every column named |
| SheepModel.Sheep.FindAll | src/models/Sheep.js:15-21 | an unfiltered page |
| SheepModel.Sheep.FindByName | src/models/Sheep.js:31-37 | one ILIKE condition on `%name%`, with no limit |
| SheepModel.Sheep.Update | src/models/Sheep.js:49-75 | the reference update for the sheep rules |
| SheepModel.UpdateWritesGivenFields | src/models/Sheep.js:54-71 | name is set when truthy and age when defined |
| SheepModel.ZeroAgeIsWritten | src/models/Sheep.js:58-61 | an age of 0 is written |
| StudentModel.Student.constructor | src/models/Student.js:5-12 | audit fields default to the id |
| StudentModel.Student.Save | src/models/Student.js:42-50 | each placeholder of the INSERT binds the field of the column it fills, for every column named |
| StudentModel.Student.FindAll | src/models/Student.js:14-32 | the reference page for the name search |
| StudentModel.Student.Count | src/models/Student.js:81-92 | the reference count for the name search |
| StudentModel.FindAllNameSearch | src/models/Student.js:14-92 | a truthy name adds one ILIKE `%name%` condition and shifts LIMIT and OFFSET; the count has the same conditions and parameters |
| StudentModel.WrappedName | src/models/Student.js:20-21 | the search pattern is the name between `%` signs |
| StudentModel.Student.Update | src/models/Student.js:52-74 | the reference update for the student rules |
| StudentModel.UpdateWritesGivenFields | src/models/Student.js:57-69 | full_name is set exactly when truthy |
| SensorDataModel.SensorData.constructor | src/models/SensorData.js:5-17 | audit fields default to the id |
| SensorDataModel.SensorData.Save | src/models/SensorData.js:60-68 | each of the nine placeholders of the INSERT binds the field of the column it fills |
| SensorDataModel.SensorData.FindAll | src/models/SensorData.js:19-47 | the reference page for the container and date filters |
| SensorDataModel.SensorData.Count | src/models/SensorData.js:119-139 | the reference count for the same filters |
| SensorDataModel.FindAllFilters | src/models/SensorData.js:19-47 | one condition per truthy filter, numbered from 1; container_id comes first; other keys change nothing |
| SensorDataModel.CountMatchesFindAll | src/models/SensorData.js:19-139 | the count and the page have the same conditions and parameters |
| SensorDataModel.SensorData.Update | src/models/SensorData.js:70-112 | the reference update for the sensor rules |
| SensorDataModel.UpdateWritesGivenFields | src/models/SensorData.js:75-108 | container_id and status are set when truthy; the readings are set when defined |
| SensorDataModel.ZeroReadingIsWritten | src/models/SensorData.js:79-81 | a reading of 0 is written |
| ReportModel.Report.constructor | src/models/Report.js:5-15 | audit fields default to the id |
| ReportModel.Report.Save | src/models/Report.js:57-65 | each of the seven placeholders of the INSERT binds the field of the column it fills |
| ReportModel.Report.FindAll | src/models/Report.js:17-43 | the reference page for the student and container filters |
| ReportModel.Report.Count | src/models/Report.js:108-124 | the reference count for the same filters |
| ReportModel.FindAllFilters | src/models/Report.js:17-43 | one condition per truthy filter; student_id comes first; LIMIT and OFFSET follow |
| ReportModel.CountMatchesFindAll | src/models/Report.js:17-124 | the count and the page agree |
| ReportModel.Report.Update | src/models/Report.js:67-101 | the reference update for the report rules |
| ReportModel.UpdateWritesGivenFields | src/models/Report.js:72-97 | ids are set when truthy and notes when defined |
| ReportModel.EmptyNotesAreWritten | src/models/Report.js:84-86 | empty notes are written |
| SheepReportModel.SheepReport.constructor | src/models/SheepReport.js:5-14 | fields are copied; audit fields have no default |
| SheepReportModel.SheepReport.Save | src/models/SheepReport.js:61-69 | each of the six placeholders of the INSERT binds the field of the column it fills |
| SheepReportModel.SheepReport.FindAll | src/models/SheepReport.js:16-48 | the reference page for sheep_id, status and the date range |
| SheepReportModel.FindAllFilters | src/models/SheepReport.js:26-44 | one condition per truthy filter; a date bound is applied exactly when given |
| SheepReportModel.SheepReport.Count | src/models/SheepReport.js:108-124 | the reference count over sheep_id and status only |
| SheepReportModel.CountIgnoresDates | src/models/SheepReport.js:108-124 | date_from and date_to do not change the count |
| SheepReportModel.CountDisagreesWithFindAll | src/models/SheepReport.js:16-124 | with only date_from given, the page has one condition and the count none |
| SheepReportModel.SheepReport.CountCorrected | src/models/SheepReport.js:108-124 | the count over the same filters as findAll |
| SheepReportModel.CorrectedCountMatchesFindAll | src/models/SheepReport.js:16-48 | the corrected count and the page agree |
| SheepReportModel.SheepReport.GetRecentByStatus | src/models/SheepReport.js:126-137 | for a truthy status it filters exactly as `count({ status })` does, with the limit on the next placeholder; for a falsy one it still compares status, where `count` applies no condition |
| SheepReportModel.SheepReport.Update | src/models/SheepReport.js:71-101 | the reference update for the feeding report rules |
| SheepReportModel.UpdateWritesGivenFields | src/models/SheepReport.js:76-97 | each field is set exactly when truthy |
| UserController.GetAll | src/controllers/UserController.js:7-30 | the page uses the limit (default 50) and offset given; the reply lists users with pagination, or 500 |
| UserController.RequestedRole | src/controllers/UserController.js:58 | the role defaults to user when undefined |
| UserController.Create | src/controllers/UserController.js:56-97 | never writes and never answers 201: 500 on lookup failure, 400 for a taken email, 403 for a non-admin role, 500 otherwise |
| UserController.CreateCorrected | src/controllers/UserController.js:56-97 | the same refusals; an admin request inserts the user with the password hashed and answers 201 |
| UserController.Update | src/controllers/UserController.js:100-137 | 500 or 404 before any write; a defined non-admin role is refused with 403; otherwise truthy fields and a defined role are written, by the actor or the user itself |
| UserController.UpdateStatementOfRequest | src/controllers/UserController.js:112-126 | each field is set exactly when truthy in the request; the password only as its hash; an assigned role is admin |
| UserController.OwnAccountGuardMissesStringIds | src/controllers/UserController.js:152 | a string id never equals `parseInt(id)`, so the guard never fires for string ids; the corrected guard fires exactly on equal ids |
| UserController.Delete | src/controllers/UserController.js:140-169 | 404 before deleting; no user gives 500; the own-account guard compares with `parseInt(id)`, so a user whose string id is the path id is deleted |
| UserController.DeleteCorrected | src/controllers/UserController.js:140-169 | a user deleting their own id is refused with 400 and nothing is deleted |
| UserController.TokenClaims | src/controllers/UserController.js:190-195 | the token carries exactly id, email, full_name and role, copied from the row |
| UserController.Login | src/controllers/UserController.js:172-206 | an unknown email and a wrong password both give 401 with the same message; success returns the signed token; any throw gives 500 |
| UserController.LoginSignsNoPassword | src/controllers/UserController.js:176-195 | the login lookup reads the password, but the token never carries it |
| ContainerController.GetAll | src/controllers/ContainerController.js:4-27 | the limit defaults to 10 and is capped at 100; the reply lists containers with pagination, or 500 |
| ContainerController.Create | src/controllers/ContainerController.js:49-75 | a taken code gives 400 before any write; otherwise it inserts with the actor or the id as author and answers 201 |
| ContainerController.Update | src/controllers/ContainerController.js:77-108 | 404 before any write; a changed truthy code is checked for uniqueness (400 when taken); otherwise the truthy code is written |
| ContainerController.UpdateStatementOfRequest | src/controllers/ContainerController.js:96-98 | code is set exactly when truthy in the request |
| ContainerController.Delete | src/controllers/ContainerController.js:110-134 | 404 before deleting; a foreign-key failure gives 400, others 500 |
| StudentController.GetAll | src/controllers/StudentController.js:4-27 | the limit defaults to 10 and is capped at 100; page and count use the same name search |
| StudentController.CountMatchesPage | src/controllers/StudentController.js:8-9 | the total counts the rows the page is taken from |
| StudentController.Create | src/controllers/StudentController.js:49-68 | inserts full_name with the actor or the id as author; 201 or 500 |
| StudentController.Update | src/controllers/StudentController.js:70-92 | 404 before any write; full_name is written when truthy |
| StudentController.UpdateStatementOfRequest | src/controllers/StudentController.js:80-82 | full_name is set exactly when truthy in the request |
| StudentController.Delete | src/controllers/StudentController.js:94-118 | 404 before deleting; a foreign-key failure gives 400, others 500 |
| SheepController.GetAll | src/controllers/SheepController.js:5-38 | a truthy name searches without a page, and the total is the number of rows found; otherwise it pages with the table count |
| SheepController.Create | src/controllers/SheepController.js:68-95 | the author is the actor or "system"; a falsy age is stored as 0 |
| SheepController.Update | src/controllers/SheepController.js:98-130 | 404 before any write; name when truthy, age when defined |
| SheepController.UpdateStatementOfRequest | src/controllers/SheepController.js:111-115 | name is set exactly when truthy and age exactly when defined in the request |
| SheepController.Delete | src/controllers/SheepController.js:133-159 | 404 before deleting; a failure gives 500 with its message |
| SensorDataController.GetAll | src/controllers/SensorDataController.js:5-43 | the truthy query filters go to both the page and the count |
| SensorDataController.UserIdDoesNotFilter | src/controllers/SensorDataController.js:16-23 | user_id is copied into the filters but changes neither the page nor the count |
| SensorDataController.GetLatestByContainer | src/controllers/SensorDataController.js:73-97 | 404 when no reading exists, the row when one does, 500 on failure |
| SensorDataController.Create | src/controllers/SensorDataController.js:100-131 | inserts the readings with status undefined and the actor, body user_id or id as author |
| SensorDataController.Update | src/controllers/SensorDataController.js:134-170 | 404 before any write; ids when truthy, readings when defined |
| SensorDataController.UpdateStatementOfRequest | src/controllers/SensorDataController.js:147-155 | readings are set when defined; status and user_id are never set |
| SensorDataController.Delete | src/controllers/SensorDataController.js:173-199 | 404 before deleting; a failure gives 500 |
| ReportController.GetAll | src/controllers/ReportController.js:5-39 | user_id and container_id are copied into the filters; the page and the count use them |
| ReportController.GetAllNeverFiltersByStudent | src/controllers/ReportController.js:14-18 | only container_id ever filters the page |
| ReportController.GetAllCorrected | src/controllers/ReportController.js:5-39 | student_id and container_id are copied into the filters |
| ReportController.GetAllCorrectedFiltersByStudent | src/controllers/ReportController.js:14-18 | a truthy student_id filters the page first |
| ReportController.Create | src/controllers/ReportController.js:69-97 | the inserted student is always undefined |
| ReportController.CreateCorrected | src/controllers/ReportController.js:69-97 | the inserted student is the body's student_id |
| ReportController.Update | src/controllers/ReportController.js:100-133 | 404 before any write; user_id and container_id when truthy, notes when defined |
| ReportController.UpdateNeverChangesStudent | src/controllers/ReportController.js:105-118 | the update never sets student_id (nor user_id, which has no rule) |
| ReportController.UpdateCorrected | src/controllers/ReportController.js:100-133 | student_id, container_id and notes are copied |
| ReportController.UpdateCorrectedChangesStudent | src/controllers/ReportController.js:105-118 | student_id is set exactly when truthy |
| ReportController.Delete | src/controllers/ReportController.js:136-162 | 404 before deleting; a failure gives 500 |
| SheepReportController.GetAll | src/controllers/SheepReportController.js:5-43 | the four truthy filters go to findAll and count |
| SheepReportController.TotalIgnoresDateRange | src/controllers/SheepReportController.js:16-23 | requests that agree on sheep_id and status report the same total |
| SheepReportController.GetRecentByStatus | src/controllers/SheepReportController.js:73-92 | the limit defaults to 10; the rows or 500 |
| SheepReportController.Create | src/controllers/SheepReportController.js:95-123 | the author is the actor or "system", always truthy |
| SheepReportController.Update | src/controllers/SheepReportController.js:126-159 | 404 before any write; each field when truthy |
| SheepReportController.UpdateStatementOfRequest | src/controllers/SheepReportController.js:139-144 | each field is set exactly when truthy in the request |
| SheepReportController.Delete | src/controllers/SheepReportController.js:162-188 | 404 before deleting; a failure gives 500 |

## Left out

- The network, Express routing, `console` logging, Swagger and `api/index.js` are not part of this model. Handlers return their reply instead of writing to `res`.
- The database is left out. Each awaited query is a parameter (`Lookup` or `Outcome`), and statements are structural. SQL text, `ORDER BY`, join aliases, `NOW()` and the ILIKE matching itself are not modelled.
- Concurrency and races between the uniqueness checks and the writes are not modelled.
- `getById` handlers, `User.findById`, `User.delete`, `User.count`, `User.findByRole` and `User.countByRole` are left out. So are the delete and count statements of Container and Sheep, and the delete statements of Report, SensorData and SheepReport. So is `Container.findByCode`. These are single fixed statements with no logic.
- `SensorData.getLatestByContainer`: only the handler's three outcomes are modelled, not its statement.
- `utils/auth` (hashPassword, comparePassword, generateToken, verifyToken) is not part of this model. A hash is the `HashOf` marker; comparison, signing and verification are oracles.
- The users and auth route files are not part of this model.
- Numbers are integers. The sensor readings are floating point in the source, and Joi's `precision(2)` is not modelled.
- The decimal form of a number is written out in full. JavaScript writes integers of 10^21 and above in exponent notation; this matters only when such a number is given as a feeding time.
- `parseInt` of a query parameter is an `Option<int>`, and NaN behaviour is not modelled.
- `routes/index.js` (lines 51-57) never mounts the students routes, so no Student handler can be reached over HTTP at all.
- Joi refuses keys a schema does not declare, and this applies to `req.query` too. So the filter and search branches of the Sensor data, Sheep report, Sheep and Student `getAll` handlers cannot be reached over HTTP, and neither can the Container and Student default limit of 10, because `validatePagination` writes 50 first. The handlers are still modelled on their whole input, as if called directly.
- Which undeclared key Joi names first depends on the order of the keys in the object, which `Obj` does not have; the problem lists the whole set.
- Joi's email, uuid and ISO-date formats are oracles (`Formats`), and its message texts come from a `describe` oracle.
- Joi's string-to-number conversion is modelled for decimal digits only.
- The admin-creation path of `UserController.create` past line 75 cannot be reached (see Findings), so only its corrected form models the insert.
- Roles.GetRoleName: an inherited property name ("toString", "constructor", "__proto__") read from the `ROLE_NAMES` object gives a function or an object in JavaScript; here every name outside the table gives "Unknown".
- `!==` and `===` between objects are modelled as structural equality; no handler compares objects.

## Findings

| source | as written | input that shows it | evidently intended | confidence | as-written member | corrected member |
|---|---|---|---|---|---|---|
| src/models/SheepReport.js:108-124 | `count` applies only sheep_id and status, while `findAll` also applies date_from and date_to | filters `{date_from: "2024-01-01"}`: the page has one condition, the count none | the total counts the rows the page is drawn from | high, not executed | SheepReportModel.CountDisagreesWithFindAll | SheepReportModel.CorrectedCountMatchesFindAll |
| src/controllers/ReportController.js:14-118 | the handlers read `user_id` where the model, the schema and the table use `student_id` | body `{student_id: "s-1", container_id: "c-1"}`: the insert binds student undefined, and the update never sets student_id | the handlers pass student_id through | high, not executed | ReportController.UpdateNeverChangesStudent | ReportController.UpdateCorrectedChangesStudent |
| src/controllers/UserController.js:75-86 | `hashPassword` is not imported and `User.create` does not exist, so every request that reaches line 75 throws | body `{email, password, full_name, role: 1}` with an unused email: 500 and no insert | an admin request inserts the user and answers 201 | high, not executed | UserController.Create | UserController.CreateCorrected |
| src/controllers/UserController.js:152 | `req.user.id === parseInt(id)` compares the string uuid id with a number | `req.user.id` equal to the path id `"abc"`: the guard is skipped and the account is deleted | a user cannot delete their own account | high, not executed | UserController.OwnAccountGuardMissesStringIds | UserController.DeleteCorrected |
| src/middleware/errorHandler.js:58-67 | `notFound` sets 404 on `res`, but `errorHandler` sets the status again from the error, which has no statusCode | `GET /foo`, a path outside /api (unmatched /api paths get the router's own 404): answered with 500 | a path that reaches `notFound` is answered with 404 | high, not executed | ErrorHandler.NotFoundAnswers500 | ErrorHandler.NotFoundCorrectedAnswers404 |
| src/routes/sensorData.js:103 | `/latest/:container_id` is guarded by `validateUuidParam`, whose schema requires a parameter named `id` | `GET /api/sensor-data/latest/<any uuid>`: params `{container_id}` lack `id`, so the route always answers 400 and the handler is never reached | the container id is validated as a UUID | high, not executed | Validation.UuidParamRejectsOtherName | Validation.ContainerParamAcceptsUuid |
