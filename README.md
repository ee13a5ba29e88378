# School administration: a verified model of the back end and the student front end

This project models the core of a school-administration system written in
TypeScript: an Express back end over MySQL and a Vue front end. The back end
manages users, students, registrations, payments, tuition fees, school years
and reports. The front end keeps a store of students and a store of the
signed-in session. Each core source file becomes one Dafny module of the same
name:

- `Auth`, `AuthMiddleware`, `AuthController`: the bearer-token checks in front
  of the routes, and sign-in, registration and the session check.
- `UserModel`, `UserController`: user accounts. The password hash never
  leaves the server, usernames stay unique, and updates are partial.
- `StudentModel`, `StudentRecord`, `StudentController`: the student listing
  with its filters and pagination, the next zero-padded student id, insertion
  with defaults, partial updates and deletion.
- `RegistrationModel`, `RegistrationController`, `PaymentModel`: registrations
  with `INV-` invoice ids, and payments recorded in a transaction that also
  marks the registration paid.
- `TuitionController`, `YearModel`, `YearController`, `CommonModel`: tuition
  fees, school years with dates derived from their period, and the
  reference lists with their built-in fallbacks.
- `ReportModel`, `ReportController`: the report queries with their optional
  filters, and the reports the controller assembles from them.
- `StudentApi`, `StudentStore`, `AuthStore`: the front end's mapping between
  its student form and the server's records, the student store, and the
  session store with its copy in the browser's storage. The session store
  also changes the password (`changePassword`), through a route the back
  end does not define, so the model takes the server's answer as an input.

Four shared modules state what the code relies on from its platform:
- `Js`: undefined, null, truthiness, `parseInt`, `padStart`, `split` and
  `trim`.
- `Sql`: statements as text with `?` placeholders and their parameters. The
  property `Paired` says a statement has exactly as many placeholders as it
  is sent parameters.
- `Http`: responses as a status and a body.
- `Transaction`: a pooled MySQL connection as a class whose methods begin,
  run, commit, roll back and release.

The database, the clock, uuids, bcrypt and JSON web tokens are inputs to the
model. What a query returns, whether it throws and what a token decodes to
are parameters of the operation that issues it. Every model operation yields
the statement it sends, with its parameters, and the response or state that
follows.

Where the design description of the system and the code differ, the model
follows the code:
- The description gives invoice ids as a running sequence `INV-NNN`.
  `backend/src/models/registrationModel.ts:140` takes `INV-` and the first
  eight characters of a uuid (`RegistrationModel.InvoiceId`).
- The description has registration creation insert a missing student.
  `registrationModel.ts:134-171` inserts only the registration row
  (`RegistrationModel.InsertQuery`).

## Model

| member | source | states |
|---|---|---|
| Js.PadStart | src/stores/studentStore.ts:201 | the padded text is at least the width long, ends with the original text and is filled on the left with the fill character only |
| Js.ParseIntOfZeroPadded | backend/src/models/studentModel.ts:228 | a zero-padded decimal reads back as its number, whatever the padding width |
| Js.JoinSplit | backend/src/controllers/yearController.ts:81 | joining the pieces of a split with the separator gives the text back |
| Js.SplitAtFirst | backend/src/controllers/yearController.ts:81 | a text with the separator splits into the part before its first occurrence followed by the pieces of the rest |
| Js.TrimPadded | backend/src/controllers/yearController.ts:81 | trimming a word surrounded by white space gives exactly the word |
| Sql.AffectedAny | backend/src/models/student.ts:136 | the answer is true exactly when at least one row was affected, and an error of the statement is passed on |
| Sql.FirstOrNull | backend/src/models/registrationModel.ts:127 | the first row when the query returned any, null otherwise |
| Sql.FormatDate | backend/src/models/student.ts:51-55 | only the named column changes, and only when its value is truthy; every other column and the set of columns are kept |
| Auth.TokenOf | backend/src/middleware/auth.ts:30 | the token is defined exactly when the header has a second space-separated piece, and it is that piece, containing no space |
| Auth.Authenticate | backend/src/middleware/auth.ts:19-51 | a missing header or a missing token is 401; otherwise the request goes on exactly when the verifier accepts the token, carrying the verified payload; every refusal is 401 |
| Auth.TokenAfterScheme | backend/src/middleware/auth.ts:30 | for any header `<scheme> <token>[ ...]` the token read is the second word |
| Auth.AnySchemeAccepted | backend/src/middleware/auth.ts:30-46 | the scheme word is never checked: any first word gives the same decision as `Bearer` |
| Auth.Authorize | backend/src/middleware/auth.ts:54-67 | passes exactly when there is a user whose role is in the list, with the user unchanged; no user is 401, a role outside the list is 403 |
| AuthMiddleware.BearerSplits | backend/src/middleware/authMiddleware.ts:16-23 | a header passing the `Bearer ` prefix test always has a second piece to take |
| AuthMiddleware.BearerToken | backend/src/middleware/authMiddleware.ts:23 | the token taken after the prefix contains no space |
| AuthMiddleware.BearerTokenOf | backend/src/middleware/authMiddleware.ts:16-23 | the token read from `Bearer <token>` is that token |
| AuthMiddleware.Authenticate | backend/src/middleware/authMiddleware.ts:12-42 | a missing header or one without the `Bearer ` prefix is 401; otherwise the request goes on exactly when the verifier accepts the token, carrying only its user id and role; every refusal is 401 |
| AuthMiddleware.Admin | backend/src/middleware/authMiddleware.ts:45-61 | passes exactly for a user whose role is `admin`; another role is 403, and no user at all is 500 because reading its role throws |
| AuthController.Login | backend/src/controllers/authController.ts:8-84 | missing credentials are 400 before any lookup; 200 exactly for an existing, active user whose password matches, answering the user without its password and a token signed over id, username and role; a failed lookup is 500 |
| AuthController.UnknownAndWrongPasswordAlike | backend/src/controllers/authController.ts:24-50 | an unknown user and a wrong password get the same 401 answer |
| AuthController.InactiveBeforePassword | backend/src/controllers/authController.ts:33-39 | a suspended account is refused with its own 401 whatever the password |
| AuthController.RegisterDto | backend/src/controllers/authController.ts:120-126 | a registered account is created active, with the password as given |
| AuthController.RegisteredActive | backend/src/controllers/authController.ts:120-126 | the INSERT a registration sends binds `active` true and stores only the password's hash |
| AuthController.Register | backend/src/controllers/authController.ts:87-142 | any missing field is 400; a taken username is 409 and an unknown role 400; 201 with the new id exactly when all fields are present, the name is free, the role is admin, teacher or staff and the INSERT succeeds |
| AuthController.TakenBeforeRole | backend/src/controllers/authController.ts:100-117 | a taken username is reported as 409 even when the role is also invalid |
| AuthController.CheckAuth | backend/src/controllers/authController.ts:145-187 | no user id on the request is 401; a missing or inactive account is 401; 200 with the public fields exactly for an active account; the status is always 200, 401 or 500 |
| UserModel.ByUsernameQuery | backend/src/models/userModel.ts:38-44 | the lookup binds the username as its single parameter |
| UserModel.ByIdQuery | backend/src/models/userModel.ts:52-58 | the lookup binds the id as its single parameter |
| UserModel.FirstUser | backend/src/models/userModel.ts:44-48 | answers the first row, null exactly when there is none, and rethrows an error |
| UserModel.Selected | backend/src/models/userModel.ts:68-70 | a listed row keeps exactly the selected columns that the stored row has, with their values |
| UserModel.FindAll | backend/src/models/userModel.ts:66-76 | one row per stored user, none of them carrying a password; an error is rethrown |
| UserModel.ActiveOrTrue | backend/src/models/userModel.ts:93 | `active` is stored as given and defaults to true only when undefined |
| UserModel.CreateQuery | backend/src/models/userModel.ts:85-95 | six placeholders for six values: the fresh id, the username, the password's hash, name, role and the `active` default |
| UserModel.Create | backend/src/models/userModel.ts:79-102 | answers the fresh id once the INSERT succeeds, and rethrows otherwise |
| UserModel.CreateStoresHash | backend/src/models/userModel.ts:82-94 | the INSERT binds the password's hash, and nothing else it binds is a hash |
| UserModel.UpdateSlots | backend/src/models/userModel.ts:111-135 | the five optional columns in their fixed order, each set exactly when the DTO asks for it |
| UserModel.Update | backend/src/models/userModel.ts:105-150 | nothing to set answers false without a statement; otherwise one placeholder per set column in order plus the id last, and the answer is whether a row was affected |
| UserModel.CollectUpdate | backend/src/models/userModel.ts:108-133 | one `column = ?` fragment and one value per column the body asks to set, in the fixed column order, the password as its hash |
| UserModel.UpdateColumns | backend/src/models/userModel.ts:111-135 | a column is written exactly when asked: an `active` of false is written, an empty username, password, name or role is not |
| UserModel.UpdateNothing | backend/src/models/userModel.ts:137-139 | an update writes nothing exactly when no field asks for its column |
| UserModel.UpdateStoresHash | backend/src/models/userModel.ts:116-120 | a new password is bound only as its hash, and the only hash bound is that of the new password |
| UserModel.DeleteQuery | backend/src/models/userModel.ts:155-158 | the DELETE binds the id as its single parameter |
| UserModel.Delete | backend/src/models/userModel.ts:153-164 | answers whether a row was removed, and rethrows an error |
| UserController.WithoutPassword | backend/src/controllers/userController.ts:39 | the answered user has every stored field except the password, with the stored values |
| UserController.GetAll | backend/src/controllers/userController.ts:6-21 | 200 with the listed users exactly when the listing succeeds, 500 otherwise |
| UserController.ListingHasNoPasswords | backend/src/controllers/userController.ts:6-13 | no user in the listing's answer carries a password |
| UserController.GetById | backend/src/controllers/userController.ts:24-52 | an unknown id is 404; 200 exactly for a found user, answered without its password; a failed lookup is 500 |
| UserController.Create | backend/src/controllers/userController.ts:55-94 | any missing field is 400 and a taken username 400; 201 with the new id exactly when all fields are present, the name is free and the INSERT succeeds; the status is always 201, 400 or 500 |
| UserController.Update | backend/src/controllers/userController.ts:97-148 | an unknown id is 404; a rename to a taken username is 400; an update that changes no row is 400; 200 exactly when the user exists, the new name is free or unchanged and a row was updated |
| UserController.OwnUsernameIsNoClash | backend/src/controllers/userController.ts:114 | sending the user's current username skips the uniqueness lookup: the answer does not depend on it |
| UserController.EmptyBodyRefused | backend/src/controllers/userController.ts:127-135 | a body with no field to set reaches no UPDATE and is answered 400 |
| UserController.Delete | backend/src/controllers/userController.ts:151-188 | an unknown id is 404; a delete that removes no row is 400; 200 exactly when the user exists and a row was removed |
| StudentModel.FormatStudentDates | backend/src/models/studentModel.ts:86-93 | formatting keeps every column, rewrites each of the two date columns only when its value is truthy, and leaves every other column alone |
| StudentModel.FindByIdQuery | backend/src/models/studentModel.ts:78-81 | the lookup binds the id as its single parameter |
| StudentModel.FindByStudentIdQuery | backend/src/models/studentModel.ts:108-111 | the lookup binds the student id as its single parameter |
| StudentModel.FindOne | backend/src/models/studentModel.ts:83-102 | the first row with its dates formatted, null exactly when there is no row, and a database error rethrown |
| StudentModel.FindAllCondsHoles | backend/src/models/studentModel.ts:149-162 | the search condition and the gender condition together have one placeholder per filter parameter pushed |
| StudentModel.FindAllFilters | backend/src/models/studentModel.ts:149-162 | the conditions and the two parameter lists are those of the search (three LIKE patterns) and the gender filter, each only when truthy |
| StudentModel.Pagination | backend/src/models/studentModel.ts:174-182 | the pagination clause has one placeholder per pagination parameter |
| StudentModel.AppendPagination | backend/src/models/studentModel.ts:174-182 | `LIMIT ?` only when a limit is given, `OFFSET ?` only after a limit, each with its parameter |
| StudentModel.ListQueryPaired | backend/src/models/studentModel.ts:143-182 | the listing statement has exactly as many placeholders as parameters, whatever the filters |
| StudentModel.CountQueryAsWrittenUnpaired | backend/src/models/studentModel.ts:144-167 | as written, with any search or gender filter the count statement has no placeholder but is sent the filter parameters |
| StudentModel.CountQueryPaired | backend/src/models/studentModel.ts:144-167 | the corrected count statement is paired and counts under exactly the listing's WHERE clause and filter parameters, without ordering or pagination |
| StudentModel.CountSharesWhere | backend/src/models/studentModel.ts:144-172 | the corrected count text after its head is the slice of the listing text holding the WHERE clause, and its parameters are the listing's parameters before pagination |
| StudentModel.FormatAll | backend/src/models/studentModel.ts:188-198 | every listed row, in order, with its dates formatted |
| StudentModel.FindAll | backend/src/models/studentModel.ts:136-212 | as written: the listing is paired and, without a limit, binds only the filter parameters; the count statement is the bare count sent the filter parameters, paired exactly when no search or gender filter is given; the answer is the formatted rows and the total exactly when both statements succeed |
| StudentModel.FindAllCorrected | backend/src/models/studentModel.ts:136-212 | with the count filtered like the listing, both statements are paired and the count shares the listing's WHERE clause and filter parameters; the answer is the formatted rows and the total exactly when both statements succeed |
| StudentModel.NextStudentId | backend/src/models/studentModel.ts:228 | the allocated student id is at least three characters long |
| StudentModel.NextStudentIdParses | backend/src/models/studentModel.ts:227-228 | the allocated id is all decimal digits and reads back as the largest id plus one |
| StudentModel.NextStudentIdInjective | backend/src/models/studentModel.ts:228 | distinct largest ids allocate distinct student ids |
| StudentModel.FirstStudentId | backend/src/models/studentModel.ts:227-228 | the first id allocated in an empty table is "001" |
| StudentModel.StudentIdAfter999 | backend/src/models/studentModel.ts:228 | padding never truncates: the id after 999 is "1000" |
| StudentModel.InsertParams | backend/src/models/studentModel.ts:243-263 | the INSERT binds nineteen values, one per column |
| StudentModel.InsertQuery | backend/src/models/studentModel.ts:236-263 | the INSERT has one placeholder for each of its nineteen values |
| StudentModel.InsertDefaultsAddress | backend/src/models/studentModel.ts:232-253 | omitted phone and address fields are stored as '' and an omitted issue date as null |
| StudentModel.InsertDefaultsOrigin | backend/src/models/studentModel.ts:233-262 | the two ids come first; omitted origin fields are stored as '', the nationality as 'ລາວ' and the date of birth as null |
| StudentModel.Create | backend/src/models/studentModel.ts:215-271 | a truthy student id is stored as given with one INSERT; otherwise the id after the largest is allocated first; the fresh internal id is answered exactly when every statement succeeds |
| StudentModel.SlotFor | backend/src/models/studentModel.ts:277-278 | a column gets a value exactly when the update asks for it |
| StudentModel.UpdateSlots | backend/src/models/studentModel.ts:286-369 | the seventeen candidate assignments in the order the source tests them |
| StudentModel.PushSeventeen | backend/src/models/studentModel.ts:286-369 | the pushed fragments and values are exactly those of the asked columns, in order |
| StudentModel.PushFirstNine | backend/src/models/studentModel.ts:286-329 | after the first nine blocks the fragments and values are exactly those of the asked columns among the first nine, in order |
| StudentModel.PushLastEight | backend/src/models/studentModel.ts:331-369 | continuing from the first nine, the last eight blocks leave exactly the fragments and values of all asked columns, in order |
| StudentModel.Update | backend/src/models/studentModel.ts:274-387 | nothing to set answers false without a statement; otherwise one placeholder per set column in order plus the id last, and the answer is whether a row was affected |
| StudentModel.UpdateColumns | backend/src/models/studentModel.ts:277-369 | a text column is set whenever its field is not undefined, null and '' included; a date column only when its field is truthy |
| StudentModel.UpdateNothing | backend/src/models/studentModel.ts:372-374 | an update sets nothing exactly when no field asks for its column |
| StudentModel.DeleteQuery | backend/src/models/studentModel.ts:392-395 | the DELETE binds the id as its single parameter |
| StudentRecord.KeyFrags | backend/src/models/student.ts:128 | one `key = ?` fragment per key of the partial record, in key order |
| StudentRecord.EntryValues | backend/src/models/student.ts:129 | the bound values are the partial record's values, in key order |
| StudentRecord.KeyFragsHoles | backend/src/models/student.ts:128-129 | the SET list has exactly one placeholder per key |
| StudentRecord.UpdateQuery | backend/src/models/student.ts:123-134 | no statement exactly for an empty partial record; otherwise a paired statement binding the values in key order and the id last |
| StudentRecord.Update | backend/src/models/student.ts:123-137 | an empty partial record answers false; otherwise whether a row was affected, and a database error is rethrown |
| StudentRecord.UpdateNamesKeys | backend/src/models/student.ts:128-132 | the SET list names exactly the partial record's keys, in order, before `WHERE id = ?` |
| StudentRecord.CreateParams | backend/src/models/student.ts:113-118 | nineteen values: the fresh id, then the record's fields in column order |
| StudentRecord.Create | backend/src/models/student.ts:104-121 | the INSERT is paired and the fresh uuid is answered once it succeeds, whatever the record holds |
| StudentRecord.CreateHasNoDefaults | backend/src/models/student.ts:113-118 | an omitted field is sent as undefined or null, not replaced by a default |
| StudentRecord.FindAll | backend/src/models/student.ts:45-60 | every row, in order, with its truthy dates formatted |
| StudentRecord.FindFirst | backend/src/models/student.ts:62-102 | the first row with its dates formatted, null exactly when there is no row |
| StudentRecord.SearchQuery | backend/src/models/student.ts:145-153 | the same `%query%` pattern is bound to all three LIKEs |
| StudentRecord.RegistrationsQuery | backend/src/models/student.ts:158-175 | the student filter and its one parameter are added exactly when a truthy student id is given |
| StudentRecord.FormatRegistrations | backend/src/models/student.ts:178-183 | every registration, in order, with its registration date formatted when set |
| StudentRecord.ByInvoiceQuery | backend/src/models/student.ts:188-198 | the lookup binds the invoice id as its single parameter |
| StudentRecord.FirstRegistration | backend/src/models/student.ts:200-211 | the first registration with its date formatted, null exactly when there is none |
| StudentRecord.SearchRegistrationsQuery | backend/src/models/student.ts:215-230 | one pattern bound to all four LIKEs |
| StudentRecord.PaymentStatusQuery | backend/src/models/student.ts:242-246 | the flag is bound first and the registration id last |
| StudentController.GetAll | backend/src/controllers/studentController.ts:6-29 | 200 with the page and its total exactly when the listing succeeds, 500 otherwise |
| StudentController.EmptyLimitIsNoLimit | backend/src/controllers/studentController.ts:10-13 | an empty `limit` query parameter adds no pagination, so the listing binds only the filter parameters |
| StudentController.GetOne | backend/src/controllers/studentController.ts:32-85 | 404 when nothing is found, 200 exactly for a found student, 500 when the lookup throws |
| StudentController.Create | backend/src/controllers/studentController.ts:88-132 | a missing Lao name or gender is 400; a given student id already in use is 400; 201 with the re-read record exactly when the fields are there, the id is free and every model call succeeds; the status is always 201, 400 or 500 |
| StudentController.AbsentStudentIdSkipsCheck | backend/src/controllers/studentController.ts:102-112 | without a truthy student id the answer does not depend on any lookup by student id |
| StudentController.Update | backend/src/controllers/studentController.ts:135-177 | an unknown id is 404; a model answer of false is 400; 200 with the re-read record exactly when the student exists, a row was updated and the re-read succeeds |
| StudentController.EmptyBodyRefused | backend/src/controllers/studentController.ts:152-160 | an update body that asks for no column sets nothing and is answered 400 |
| StudentController.Delete | backend/src/controllers/studentController.ts:180-217 | an unknown id is 404; a model answer of false is 400; 200 exactly when the student exists and a row was removed |
| RegistrationModel.FilterSql | backend/src/models/registrationModel.ts:64-82 | the filter text has exactly one placeholder per filter parameter |
| RegistrationModel.CountQuery | backend/src/models/registrationModel.ts:85-86 | the count wraps the filtered listing and binds exactly its filter parameters |
| RegistrationModel.Pagination | backend/src/models/registrationModel.ts:92-100 | the pagination text has one placeholder per pagination parameter |
| RegistrationModel.ListQuery | backend/src/models/registrationModel.ts:54-102 | the listing statement is paired whatever the filters |
| RegistrationModel.CountIgnoresPagination | backend/src/models/registrationModel.ts:85-100 | the count does not depend on the limit or offset, and its parameters are a prefix of the listing's |
| RegistrationModel.PaidFalseFilters | backend/src/models/registrationModel.ts:79-82 | a paid filter of false still appends `AND r.paid = ?` and binds false |
| RegistrationModel.NoFilters | backend/src/models/registrationModel.ts:54-82 | with no active filter the listing is the bare `WHERE 1=1` query with no parameter |
| RegistrationModel.OffsetWithoutLimit | backend/src/models/registrationModel.ts:92-100 | an offset without a limit still appends `OFFSET ?` with its parameter alone |
| RegistrationModel.Total | backend/src/models/registrationModel.ts:87 | the count read back through `parseInt` is the count itself |
| RegistrationModel.AppendFilters | backend/src/models/registrationModel.ts:63-82 | the appended filter text and parameters are those of the active filters, in order |
| RegistrationModel.AppendPagination | backend/src/models/registrationModel.ts:92-100 | each of LIMIT and OFFSET is appended on its own, with its parameter, only when truthy |
| RegistrationModel.FindAll | backend/src/models/registrationModel.ts:49-111 | the count is sent before the listing, which is sent only if the count succeeds; the answer is the rows and the count exactly when both succeed; the table is unchanged and the connection released |
| RegistrationModel.FindByIdQuery | backend/src/models/registrationModel.ts:119-125 | the lookup binds the id as its single parameter |
| RegistrationModel.FindById | backend/src/models/registrationModel.ts:114-131 | the first row or null, an error rethrown, the table unchanged and the connection released |
| RegistrationModel.InvoiceId | backend/src/models/registrationModel.ts:141 | the invoice id is `INV-` followed by at most the first eight characters of the uuid |
| RegistrationModel.DatePart | backend/src/models/registrationModel.ts:142 | the registration date holds no `T`: it is the date part of the timestamp |
| RegistrationModel.NewRow | backend/src/models/registrationModel.ts:144-158 | the inserted row is paid exactly when `paid` is true, and both timestamps are `NOW()` |
| RegistrationModel.CreatedUnpaid | backend/src/models/registrationModel.ts:157 | a registration created without a true paid flag is unpaid |
| RegistrationModel.InsertQuery | backend/src/models/registrationModel.ts:144-160 | seven placeholders for the invoice id, the date, the four text fields and the paid flag; the student name and phone are not stored |
| RegistrationModel.Create | backend/src/models/registrationModel.ts:134-171 | the new row is committed under the invoice id exactly when the INSERT is accepted and the id is free; otherwise the table is unchanged; the connection is released on every path |
| RegistrationModel.UpdateSlots | backend/src/models/registrationModel.ts:184-207 | the five assignable columns in source order, each included whenever its field is not undefined |
| RegistrationModel.UpdateQuery | backend/src/models/registrationModel.ts:181-210 | paired, binding the set values in order and the id last |
| RegistrationModel.UpdateIgnoresNameAndPhone | backend/src/models/registrationModel.ts:181-210 | the student name and phone of the request never reach the statement |
| RegistrationModel.UpdateNeverEmpty | backend/src/models/registrationModel.ts:181 | even an empty update sets `updated_at`, so the SET list is never empty |
| RegistrationModel.AssignKeeps | backend/src/models/registrationModel.ts:181-207 | an update keeps the registration date and creation time and sets `updated_at` to `NOW()` |
| RegistrationModel.Updated | backend/src/models/registrationModel.ts:209-212 | the UPDATE changes only the row with that id, if any, and keeps every id |
| RegistrationModel.BuildUpdate | backend/src/models/registrationModel.ts:181-210 | appending the fields one after the other builds exactly the update statement |
| RegistrationModel.Update | backend/src/models/registrationModel.ts:174-223 | committed exactly when the server accepts the UPDATE, answering whether the id existed; otherwise rolled back with the table unchanged; the connection is released on every path |
| RegistrationModel.DeleteQuery | backend/src/models/registrationModel.ts:234-235 | the DELETE binds the id as its single parameter |
| RegistrationModel.Delete | backend/src/models/registrationModel.ts:226-246 | on success the row is gone and the answer is whether it existed; on failure the table is unchanged; the connection is released on every path |
| Transaction.Connection.constructor | backend/src/models/paymentModel.ts:21 | a fresh pooled connection is held, outside any transaction, and sees the committed tables |
| Transaction.Connection.BeginTransaction | backend/src/models/paymentModel.ts:22 | a transaction starts on the committed tables |
| Transaction.Connection.Run | backend/src/models/paymentModel.ts:53-62 | an accepted statement changes only this connection's tables; a rejected one changes nothing; nothing is committed |
| Transaction.Connection.Commit | backend/src/models/paymentModel.ts:64 | the connection's changes become the committed tables |
| Transaction.Connection.Rollback | backend/src/models/paymentModel.ts:68 | the connection's changes are dropped and the committed tables kept |
| Transaction.Connection.Release | backend/src/models/paymentModel.ts:72 | the connection goes back to the pool and the tables are untouched |
| PaymentModel.PaymentId | backend/src/models/paymentModel.ts:25 | a truthy given id is kept, otherwise the fresh uuid is used |
| PaymentModel.TextOrNull | backend/src/models/paymentModel.ts:48-49 | a truthy text is bound as given, anything else as null |
| PaymentModel.PaymentValues | backend/src/models/paymentModel.ts:42-51 | eight values, the payment id and the registration id first |
| PaymentModel.MissingNotesAreNull | backend/src/models/paymentModel.ts:48-49 | a missing or empty receipt number or note is stored as null |
| PaymentModel.InsertQuery | backend/src/models/paymentModel.ts:27-53 | eight placeholders for the eight payment values |
| PaymentModel.FlagQuery | backend/src/models/paymentModel.ts:56-62 | the registration id is the UPDATE's single parameter |
| PaymentModel.InsertPayment | backend/src/models/paymentModel.ts:53 | the INSERT adds the payment under its id and leaves the paid flags alone |
| PaymentModel.FlagPaid | backend/src/models/paymentModel.ts:56-62 | the registration is flagged paid when it exists; every other flag and every payment is kept |
| PaymentModel.RecordedState | backend/src/models/paymentModel.ts:42-62 | a recorded payment is stored under its id, every other payment is kept, its registration is flagged paid and every other registration keeps its flag |
| PaymentModel.Create | backend/src/models/paymentModel.ts:18-74 | both statements are committed together and the payment id answered exactly when the INSERT is accepted with a free id and the flag UPDATE is accepted; otherwise the tables are unchanged; the connection is released on every path |
| PaymentModel.RunStatements | backend/src/models/paymentModel.ts:25-60 | inside the open transaction the INSERT is always sent and the flag UPDATE only after an accepted INSERT; both succeed exactly when the id is free and neither is refused, and then the working tables are the recorded ones; committed tables are untouched |
| PaymentModel.ByRegistrationQuery | backend/src/models/paymentModel.ts:79-95 | one registration's payments, its id as the single parameter, newest payment date first |
| PaymentModel.SearchQuery | backend/src/models/paymentModel.ts:107-137 | one pattern bound to all four LIKEs, newest first, limited to 50 rows |
| PaymentModel.Limited | backend/src/models/paymentModel.ts:131 | `LIMIT n` answers the first rows, at most n of them, and all of them when there are no more than n |
| PaymentModel.Search | backend/src/models/paymentModel.ts:105-144 | at most 50 rows, a prefix of the matching ones; an error is rethrown |
| RegistrationController.PaidQuery | backend/src/controllers/registrationController.ts:11 | no `paid` parameter means no paid filter; any `paid` gives a filter that is true exactly when it reads "true" |
| RegistrationController.PaidAlwaysFilters | backend/src/controllers/registrationController.ts:11-21 | any `paid` in the query string filters the listing on `paid == "true"`; without one the filter parameters are those of search and school year alone |
| RegistrationController.GetAll | backend/src/controllers/registrationController.ts:7-37 | 200 with the registrations and their total exactly when the listing succeeds, 500 otherwise |
| RegistrationController.GetById | backend/src/controllers/registrationController.ts:73-98 | 404 when nothing is found, 200 exactly for a found registration, 500 when the lookup throws |
| RegistrationController.Create | backend/src/controllers/registrationController.ts:101-136 | a missing student id, classroom, level or school year is 400; 201 with the re-read registration exactly when the body is complete and both model calls succeed; the status is always 201, 400 or 500 |
| RegistrationController.NameAndPhoneNotRequired | backend/src/controllers/registrationController.ts:106-115 | the student name and phone of the body play no part in the answer's status, and no student lookup is made |
| RegistrationController.Update | backend/src/controllers/registrationController.ts:139-183 | an unknown id is 404; a model answer of false is 400; 200 with the re-read registration exactly when it exists, a row was updated and the re-read succeeds |
| RegistrationController.Delete | backend/src/controllers/registrationController.ts:186-223 | an unknown id is 404; a model answer of false is 400; 200 exactly when it exists and a row was removed |
| TuitionController.FalsyOrAtMostZero | backend/src/controllers/tuitionController.ts:83 | `!amount \|\| amount <= 0` refuses exactly the amounts that are not positive numbers |
| TuitionController.CreateAsWritten | backend/src/controllers/tuitionController.ts:50-75 | as written: a missing id, name, year or level, or an amount at most zero, is 400; a missing amount passes that test but its insert throws, so it is 500; 201 exactly when the written test passes, an amount is given and the insert succeeds |
| TuitionController.MissingAmountIsServerError | backend/src/controllers/tuitionController.ts:54-73 | as written, a body with every text field but no amount passes the check, and the insert it reaches fails, so the answer is 500 rather than 400 |
| TuitionController.Create | backend/src/controllers/tuitionController.ts:50-83 | corrected: every missing field and every amount that is not positive is 400; a 201 always carries a positive amount; the status is always 201, 400 or 500 |
| TuitionController.CreateRejectsMore | backend/src/controllers/tuitionController.ts:54-83 | the corrected test refuses everything the written one refuses, and beyond it only a missing or non-numeric amount; where both accept, both answer alike |
| TuitionController.Update | backend/src/controllers/tuitionController.ts:78-112 | an invalid body is 400; a model answer of false is 404; 200 exactly for a valid body that was written |
| TuitionController.UpdateNeedsPositiveAmount | backend/src/controllers/tuitionController.ts:80-91 | an update reaches the model exactly when name, year and level are present and the amount is positive; an id in the body plays no part |
| TuitionController.Delete | backend/src/controllers/tuitionController.ts:115-139 | 404 when the model answers false, 200 exactly when it answers true, 500 when it throws |
| TuitionController.GetAll | backend/src/controllers/tuitionController.ts:6-20 | 200 with the rows exactly when the listing succeeds, 500 otherwise |
| TuitionController.GetOne | backend/src/controllers/tuitionController.ts:23-47 | 404 when nothing is found, 200 exactly for a found fee, 500 when the lookup throws |
| TuitionController.ByLevelAndYear | backend/src/controllers/tuitionController.ts:142-179 | a missing or empty level or year is 400; otherwise the lookup of the trimmed parameters decides the answer as for a single fee |
| TuitionController.PaddedParamsTrimmed | backend/src/controllers/tuitionController.ts:155-158 | white space around the route parameters does not change the answer |
| TuitionController.BlankLevelLookedUp | backend/src/controllers/tuitionController.ts:146-158 | the presence test runs before trimming: a level of one space is looked up as the empty level |
| YearModel.SchoolYear.constructor | backend/src/models/yearModel.ts:3-10 | a year record holds exactly the fields it is built from |
| YearModel.StartDateOf | backend/src/models/yearModel.ts:46-47 | the default start date is a non-empty text, the year followed by `-05-01` |
| YearModel.EndDateOf | backend/src/models/yearModel.ts:51-52 | the default end date is a non-empty text, the year followed by `-04-30` |
| YearModel.DefaultsKeepGiven | backend/src/models/yearModel.ts:40-58 | every field that was given is kept, and the id and the period are never touched |
| YearModel.DefaultsFill | backend/src/models/yearModel.ts:40-58 | after the defaults both dates are set, the start on the 1st of May of this year and the end on the 30th of April of the next; `is_current` is false unless given; the name is set exactly when a name or a period was |
| YearModel.DefaultsIdempotent | backend/src/models/yearModel.ts:40-58 | filling the defaults a second time, at any later clock reading, changes nothing |
| YearModel.InsertQuery | backend/src/models/yearModel.ts:60-63 | six placeholders for the six fields in column order |
| YearModel.CreateYear | backend/src/models/yearModel.ts:37-69 | the record itself is filled with the defaults, the INSERT carries the filled record, and the same record is answered once the INSERT succeeds |
| YearModel.FillDefaults | backend/src/models/yearModel.ts:40-58 | the record itself ends up holding exactly the defaults rule applied to what it held before |
| YearModel.NamedByPeriod | backend/src/models/yearModel.ts:75-77 | a truthy period names the year when no truthy name is given; no other field changes |
| YearModel.UpdateQuery | backend/src/models/yearModel.ts:79-82 | all five columns are bound from the record, whatever they hold, and the id last |
| YearModel.UpdateYear | backend/src/models/yearModel.ts:72-89 | the record is named by its period if needed, the UPDATE carries it, and the answer is whether a row was affected |
| YearModel.UpdateWritesMissingDates | backend/src/models/yearModel.ts:79-82 | a date left out of the update is written as undefined rather than kept |
| YearModel.GetYearById | backend/src/models/yearModel.ts:25-34 | the id is the single parameter; the first row or null, null exactly when there is none; an error is rethrown |
| YearModel.DeleteYear | backend/src/models/yearModel.ts:92-101 | the id is the single parameter; the answer is whether a row was removed; an error is rethrown |
| YearController.PeriodYears | backend/src/controllers/yearController.ts:81-83 | a period yields two years only when both parse to non-zero numbers |
| YearController.PeriodYearsOfDigits | backend/src/controllers/yearController.ts:81-83 | a period written "A-B" with two positive years gives back exactly A and B |
| YearController.PeriodWithoutDash | backend/src/controllers/yearController.ts:81-83 | a period with no '-' names no years |
| YearController.FillCreateDates | backend/src/controllers/yearController.ts:80-91 | the create date rule applied to the body itself: both dates are replaced when either is missing, from the period or else from the clock |
| YearController.SetDatesFrom | backend/src/controllers/yearController.ts:82-90 | both dates are set, from the years of the period when it names them and otherwise from the current year and the next |
| YearController.PreparedFields | backend/src/controllers/yearController.ts:76-96 | the name becomes the period even over a given name; both dates are set; given dates survive only when both are given; `is_current` is false unless given; id and period are kept |
| YearController.PreparedDatesFromPeriod | backend/src/controllers/yearController.ts:80-85 | with a date missing and a period "A-B", the dates become the 1st of May of A and the 30th of April of B, a given date included |
| YearController.PreparedDatesFromClock | backend/src/controllers/yearController.ts:86-90 | with a date missing and a period that names no years, the dates span the current academic year from the clock |
| YearController.PreparedNeedsNoDefaults | backend/src/controllers/yearController.ts:76-98 | the prepared body leaves the model's own defaults nothing to change |
| YearController.CreatedYearIsDuplicate | backend/src/controllers/yearController.ts:63-77 | once a year is stored, creating its period again is a duplicate |
| YearController.CreateYear | backend/src/controllers/yearController.ts:50-111 | no id or period is 400; a period already used as some year's period or name is 400, the body untouched and nothing sent; 201 with the prepared record exactly when the body is valid and new and both model calls succeed; the status is always 201, 400 or 500 |
| YearController.FillUpdateDates | backend/src/controllers/yearController.ts:133-140 | the update date rule applied to the body itself: only a missing date is filled, and only from the period |
| YearController.FillMissingFrom | backend/src/controllers/yearController.ts:137-140 | only a missing date is set, and only when the period names its years; every other field is kept |
| YearController.RefreshedFields | backend/src/controllers/yearController.ts:127-140 | a given name and given dates are kept; a missing date is filled only from the period; `is_current`, id and period are never touched |
| YearController.UpdateYear | backend/src/controllers/yearController.ts:114-163 | no period is 400 with nothing sent; otherwise the refreshed body is written; an update that affects no row is 404; 200 exactly when a row was affected |
| YearController.GetAll | backend/src/controllers/yearController.ts:6-20 | 200 with the years exactly when the listing succeeds, 500 otherwise |
| YearController.GetById | backend/src/controllers/yearController.ts:23-47 | 404 when nothing is found, 200 exactly for a found year, 500 when the lookup throws |
| YearController.Delete | backend/src/controllers/yearController.ts:166-190 | 404 when the model answers false, 200 exactly when it answers true, 500 when it throws |
| ReportModel.ActiveFilters | backend/src/models/reportModel.ts:112-125 | the filters that push a condition, in order, each of them active |
| ReportModel.CondsParamsAligned | backend/src/models/reportModel.ts:112-125 | the i-th pushed parameter belongs to the i-th pushed condition: both are the active filters, in order |
| ReportModel.HolesConds | backend/src/models/reportModel.ts:112-125 | every pushed condition carries exactly one placeholder |
| ReportModel.CondsConcat | backend/src/models/reportModel.ts:112-125 | filters contribute their conditions independently of one another |
| ReportModel.ParamsConcat | backend/src/models/reportModel.ts:112-125 | filters contribute their parameters independently of one another |
| ReportModel.InactiveAddsNothing | backend/src/models/reportModel.ts:112-125 | an absent, empty, 'all' or falsy filter adds no condition and no parameter, wherever it stands |
| ReportModel.NoActiveNoWhere | backend/src/models/reportModel.ts:127-129 | with no active filter the query has no WHERE and no filter parameter |
| ReportModel.NoActiveFilters | backend/src/models/reportModel.ts:112-125 | a list of inactive filters has no active filter |
| ReportModel.FilteredPaired | backend/src/models/reportModel.ts:110-133 | a report query always has exactly one parameter per placeholder |
| ReportModel.FilteredShape | backend/src/models/reportModel.ts:127-131 | WHERE follows the head exactly when a filter is active, and the ordering or grouping tail always comes last |
| ReportModel.PushFilter | backend/src/models/reportModel.ts:112-115 | one filter block pushes its condition and parameter exactly when the filter is active |
| ReportModel.BuildQuery | backend/src/models/reportModel.ts:110-131 | the filter blocks in source order build exactly the report's query |
| ReportModel.GetStudentList | backend/src/models/reportModel.ts:82-139 | the year, level and class filters in that order, ordered by name; paired; the rows, or none when the database throws |
| ReportModel.GetAttendanceList | backend/src/models/reportModel.ts:153-206 | the year, level and class id filters, grouped by student; paired; the rows, or none when the database throws |
| ReportModel.GetGradesByClass | backend/src/models/reportModel.ts:222-282 | the year, level and class id filters, ordered by average; paired; the rows, or none when the database throws |
| ReportModel.GetGradesByLevel | backend/src/models/reportModel.ts:295-339 | the year and level filters, grouped by class; paired; the rows, or none when the database throws |
| ReportModel.GetRegistrationData | backend/src/models/reportModel.ts:357-417 | the year, level and class id filters, newest registration first; paired; the rows, or none when the database throws |
| ReportModel.GetFinancialReportByMonth | backend/src/models/reportModel.ts:428-481 | the year and month filters; paired; the rows, or none when the database throws |
| ReportModel.GetStudentsByGender | backend/src/models/reportModel.ts:484-529 | the year, level and class filters; paired; the first row of counts, or zero counts when there is none or the database throws |
| ReportModel.YearRegistrationsQuery | backend/src/models/reportModel.ts:538-550 | paired; the level is bound exactly when it is not ignored (falsy, 'all' or 'null') |
| ReportModel.StudentIds | backend/src/models/reportModel.ts:552 | one student id per registration row, in order |
| ReportModel.StudentsInQuery | backend/src/models/reportModel.ts:558-562 | one placeholder per student id, the ids as the parameters |
| ReportModel.GetStudentsByYear | backend/src/models/reportModel.ts:531-569 | a falsy year answers [] without a query; a failed or empty registration query answers [] without the second query; otherwise the students of exactly those ids are looked up and their rows answered |
| ReportModel.GetStudentsByLevel | backend/src/models/reportModel.ts:572-607 | the year filter only, grouped by level; paired; the rows, or none when the database throws |
| ReportModel.GetTuitionStatus | backend/src/models/reportModel.ts:609-652 | the year, level and class filters; paired; the first row of counts, or zero counts when there is none or the database throws |
| ReportModel.GetMonthlyPayments | backend/src/models/reportModel.ts:654-705 | the year and month filters; paired; the rows, or none when the database throws |
| ReportModel.GetClassAverages | backend/src/models/reportModel.ts:707-747 | the year and level filters, grouped by class; paired; the rows, or none when the database throws |
| ReportModel.GetStudentTrends | backend/src/models/reportModel.ts:749-768 | a fixed query with no parameter; the rows, or none when the database throws |
| ReportModel.GetAttendanceReports | backend/src/models/reportModel.ts:770-824 | the year and class filters; paired; the rows, or none when the database throws |
| ReportModel.GetExamComparisons | backend/src/models/reportModel.ts:826-870 | the year and level filters; paired; the rows, or none when the database throws |
| ReportModel.SubjectsQuery | backend/src/models/reportModel.ts:911-922 | the student's id is the single parameter of its subjects query |
| ReportModel.AttachSubjects | backend/src/models/reportModel.ts:910-936 | every student keeps its row and gets the subjects its own query answered; a failing subjects query empties that student's subjects and no other's |
| ReportModel.GetStudentPerformance | backend/src/models/reportModel.ts:872-942 | the year and class filters then the limit as the last parameter, 10 by default; paired; no students when the main query throws, otherwise each with its subjects |
| ReportController.YearIdOfDigits | backend/src/controllers/reportController.ts:10 | a year id written in digits reaches the model as that number, and an absent or empty one as no year |
| ReportController.LimitOfDefault | backend/src/controllers/reportController.ts:315 | without a limit the performance report lists ten students; a limit written in digits is taken as given |
| ReportController.TotalTextIffSomeText | backend/src/controllers/reportController.ts:73 | as written, the total is a string exactly when some month's amount is text, which the decimal sums the driver delivers always are |
| ReportController.TextAmountsConcatenate | backend/src/controllers/reportController.ts:73 | as written, months whose amounts are all text total "0" followed by their texts run together, not their sum |
| ReportController.DecimalTotalAsWritten | backend/src/controllers/reportController.ts:73 | as written, months of "150000.00" and "200000.00" kip total the text "0150000.00200000.00" |
| ReportController.AsWrittenAgreesOnNumbers | backend/src/controllers/reportController.ts:73 | where no amount is text, the total as written is the intended numeric sum |
| ReportController.TwoMonthsCorrected | backend/src/controllers/reportController.ts:73 | corrected: two months whose sums arrive as whole kip with ".00" cents total the sum of the two numbers |
| ReportController.TotalAmountAppend | backend/src/controllers/reportController.ts:73 | corrected: the numeric total of two runs of months is the sum of their totals, NaN if either is NaN |
| ReportController.TotalAmountFromFirst | backend/src/controllers/reportController.ts:73 | corrected: summed from the first month instead of the last, the numeric total is the same |
| ReportController.TotalAmountBounds | backend/src/controllers/reportController.ts:73 | corrected: with every amount reading as a number that is not negative, the total is a number, not negative, and no month exceeds it |
| ReportController.GetStudentReports | backend/src/controllers/reportController.ts:5-56 | 200 with the four reports exactly when every model call succeeds, 500 otherwise |
| ReportController.GetFinancialReports | backend/src/controllers/reportController.ts:58-110 | always 200 with success; when both calls succeed, the monthly payments, their total as written and the table; an empty report with the number 0 as total otherwise |
| ReportController.FinancialFallbackIsEmptyReport | backend/src/controllers/reportController.ts:89-100 | the fallback answer is that of a year without payments |
| ReportController.GetAcademicReports | backend/src/controllers/reportController.ts:112-155 | 200 with the three reports exactly when every model call succeeds, 500 otherwise |
| ReportController.GetAllReports | backend/src/controllers/reportController.ts:157-220 | 200 with all eleven reports and the total of the monthly payments as written exactly when every call succeeds, 500 otherwise |
| ReportController.AllAgreesWithFinancial | backend/src/controllers/reportController.ts:73-192 | the combined report and the financial report answer the same total and the same financial table |
| ReportController.FallbackOnlyInFinancial | backend/src/controllers/reportController.ts:89-217 | a failing financial table answers 500 from the combined report but an empty 200 from the financial report |
| ReportController.GetOneReport | backend/src/controllers/reportController.ts:222-241 | 200 with the report exactly when the model call succeeds, 500 otherwise |
| ReportController.GetAttendanceReports | backend/src/controllers/reportController.ts:243-278 | 200 with the summary and the list exactly when both calls succeed, 500 otherwise |
| ReportController.GetStudentPerformance | backend/src/controllers/reportController.ts:309-338 | the model is asked for the parsed limit, 10 by default; 200 exactly when it answers, 500 otherwise |
| Http.QueryIntOfDigits | backend/src/controllers/studentController.ts:10-11 | a query parameter written in digits reaches the model as its number; an absent or empty one as undefined |
| CommonModel.GetAcademicYears | backend/src/models/commonModel.ts:26-54 | when the table probe and the query both answer, the years are the table's rows; when either throws, the two built-in years |
| CommonModel.YearStrings | backend/src/models/commonModel.ts:42-45 | the built-in years are named "2024-2025" and "2025-2026" and run from 1 May to 30 April |
| CommonModel.FallbackYearsConsecutive | backend/src/models/commonModel.ts:42-52 | the built-in years are consecutive school years from 2024, each from 1 May to the next 30 April, and only the first is current |
| CommonModel.FallbackYearsArePeriods | backend/src/models/commonModel.ts:42-45 | each built-in year's name reads back as the period of its two calendar years |
| CommonModel.GetLevels | backend/src/models/commonModel.ts:57-95 | when the probe and the query answer, the levels are the table's rows; when either throws, the seven built-in levels |
| CommonModel.FallbackLevelsInOrder | backend/src/models/commonModel.ts:73-93 | the seven built-in levels are grades 1 to 7 in order, each with its grade number as id |
| CommonModel.FallbackLevelIdsDistinct | backend/src/models/commonModel.ts:73-81 | no two built-in levels share an id |
| CommonModel.ClassesQueryPaired | backend/src/models/commonModel.ts:104-119 | the classes query binds the level exactly once when a level other than 'all' is given, and has no placeholder otherwise |
| CommonModel.OfLevelMembers | backend/src/models/commonModel.ts:140-144 | the classes kept are exactly the given classes of that level |
| CommonModel.FilterByLevel | backend/src/models/commonModel.ts:140-144 | with no level, an empty one or 'all' the list is untouched; otherwise exactly the classes of that level remain |
| CommonModel.MockClassesShape | backend/src/models/commonModel.ts:122-153 | the built-in classes are rooms 1 and 2 of each built-in level in level order, and the outer fallback is their first four |
| CommonModel.GetClasses | backend/src/models/commonModel.ts:98-162 | the query is sent only after the probe answers; the table's classes are returned when it answers, otherwise the built-in classes under the same level filter |
| CommonModel.OuterFallback | backend/src/models/commonModel.ts:148-160 | every class of the outer fallback is also one the inner fallback would give for the same level |
| CommonModel.OfLevelNone | backend/src/models/commonModel.ts:140-144 | a list in which no class has the level yields nothing for it |
| CommonModel.UnknownLevelNoClasses | backend/src/models/commonModel.ts:122-144 | a level that is none of the built-in levels gets no built-in class |
| CommonModel.OfLevelSlice | backend/src/models/commonModel.ts:140-144 | when the classes of a level form one contiguous run, filtering by it yields exactly that run |
| CommonModel.OfLevelTwoPerLevel | backend/src/models/commonModel.ts:122-144 | in a list of two classes per level in level order, filtering by a level yields its two classes |
| CommonModel.KnownLevelTwoRooms | backend/src/models/commonModel.ts:122-144 | each built-in level gets exactly its two built-in classes, rooms 1 and 2 |
| StudentApi.OrEmpty | src/api/studentApi.ts:34 | a photo URL that is present and non-empty is kept; a missing, null or empty one becomes the empty string |
| StudentApi.MapStudent | src/api/studentApi.ts:15-38 | the form record carries the photo URL or "", an empty search text and the server's row id for later updates |
| StudentApi.MapToApiStudent | src/api/studentApi.ts:41-62 | the record sent to the server carries no row id and always carries the photo URL |
| StudentApi.ApiRoundTrip | src/api/studentApi.ts:15-62 | a server record read into the form and written back is the same record without its id, with a missing photo URL sent as "" |
| StudentApi.StudentRoundTrip | src/api/studentApi.ts:15-62 | a form record written for the server and read back is the same record with an empty search text and no row id |
| StudentApi.FormRoundTrip | src/api/studentApi.ts:15-62 | reading a server record, writing it back and reading it again loses only its row id |
| StudentApi.MapAll | src/api/studentApi.ts:67-75 | a listing that answers gives one mapped student per record, in the same order; a failed request fails |
| StudentApi.SearchParams | src/api/studentApi.ts:80-82 | the search sends "query" exactly when the text is non-empty and "gender" exactly when one other than 'all' is given, with those values and no other parameter |
| StudentApi.SearchStudents | src/api/studentApi.ts:78-90 | the search sends those parameters and maps the answer as the listing does |
| StudentApi.GetStudent | src/api/studentApi.ts:93-118 | a found record is returned mapped; a 404 gives null; any other failure is rethrown |
| StudentApi.CreateStudent | src/api/studentApi.ts:121-129 | the record posted has no row id and reads back as the form record; the new id or the failure is passed through |
| StudentApi.UpdateStudent | src/api/studentApi.ts:132-144 | a record without a row id fails before any request; otherwise it is sent to its own id and the answer is true exactly when the request succeeds |
| StudentApi.DeleteStudent | src/api/studentApi.ts:147-155 | the answer is true exactly when the request succeeds, and a failure is rethrown |
| StudentStore.Find | src/stores/studentStore.ts:252-254 | nothing is found exactly when no student has the id; otherwise the first student with that id |
| StudentStore.NumericIdsExact | src/stores/studentStore.ts:193-195 | the numeric ids are exactly the ids that parse as base-10 integers, an empty id counting as 0 |
| StudentStore.Max | src/stores/studentStore.ts:200 | the maximum of a non-empty list of ids is one of them and no id exceeds it |
| StudentStore.GeneratedAsWritten | src/stores/studentStore.ts:187-202 | as written, the form's id is left alone exactly when the list is empty |
| StudentStore.Generated | src/stores/studentStore.ts:187-202 | the generated id is at least three characters long |
| StudentStore.GeneratedCases | src/stores/studentStore.ts:193-201 | with no numeric id the corrected generator gives "001"; with one it agrees with the code as written |
| StudentStore.GeneratedAboveAll | src/stores/studentStore.ts:193-201 | the generated id is the next id after the largest, zero-padded to three digits as the back end does, and it parses to a number above every numeric id in the list |
| StudentStore.NonNumericIdsAsWritten | src/stores/studentStore.ts:197-201 | with students but no numeric id, the code as written leaves "-Infinity" in the form where "001" was intended |
| StudentStore.AbcIsNotNumeric | src/stores/studentStore.ts:194-195 | a student id "abc" is dropped as not numeric |
| StudentStore.NewFormAsWritten | src/stores/studentStore.ts:181-185 | as written, the new form keeps the row id of the student edited before, and an empty list leaves its student id empty |
| StudentStore.NewForm | src/stores/studentStore.ts:181-185 | the corrected new form is the empty student, with no row id and the generated student id |
| StudentStore.NewFormKeepsOldIdAsWritten | src/stores/studentStore.ts:181-185 | after editing a student, the new form as written still carries that student's row id and no student id, where the corrected form has no row id and the student id "001" |
| StudentStore.TuitionFee | src/stores/studentStore.ts:283-294 | a listed level costs its listed fee; any other costs 50000 |
| StudentStore.TuitionFeeBounds | src/stores/studentStore.ts:285-293 | every fee lies between 50000 and 85000, and exactly the listed levels cost more than 50000 |
| StudentStore.UpdateStudentRequest | src/api/studentApi.ts:132-138 | no request is sent exactly when the student has no row id |
| StudentStore.Store.constructor | src/stores/studentStore.ts:6-35 | the store starts with no students, the empty form, not editing, no search text, gender 'all', not loading and no message |
| StudentStore.Store.FetchAllStudents | src/stores/studentStore.ts:43-58 | on success the list is replaced by the mapped answer and the message cleared; on failure the list is kept and the fetch message set; loading ends either way and nothing else changes |
| StudentStore.Store.SearchStudents | src/stores/studentStore.ts:61-79 | the search sends the stored text and a gender only when it is not 'all'; the list and message change as for a fetch, with the search message on failure |
| StudentStore.Store.AddStudent | src/stores/studentStore.ts:95-114 | the new id is returned exactly when the creation succeeds; the list is refetched only then, and the message says which step failed |
| StudentStore.Store.UpdateStudent | src/stores/studentStore.ts:117-136 | success needs a row id and an accepted request; the list is refetched only on success, and the message says which step failed |
| StudentStore.Store.DeleteStudent | src/stores/studentStore.ts:139-166 | the delete goes to the row id of the first student with the id, and to nothing when there is none or it has no row id; the list is refetched only on success |
| StudentStore.Store.StartEdit | src/stores/studentStore.ts:169-178 | the edit starts exactly when a student has the id, loading that first student into the form; otherwise nothing changes |
| StudentStore.Store.GenerateStudentIdAsWritten | src/stores/studentStore.ts:187-202 | as written, "001" is returned only for an empty list, and the form's student id becomes what the code as written computes |
| StudentStore.Store.StartNewAsWritten | src/stores/studentStore.ts:181-185 | as written, the form becomes the new form that keeps the previous row id, and editing ends |
| StudentStore.Store.GenerateStudentId | src/stores/studentStore.ts:187-202 | the corrected generator returns the generated id and writes it into the form, changing nothing else |
| StudentStore.Store.StartNew | src/stores/studentStore.ts:181-185 | the corrected new form is the empty student with the generated id, editing ends and nothing else changes |
| StudentStore.Store.ClearSearch | src/stores/studentStore.ts:205-209 | the search text is cleared, the gender reset to 'all' and the full list refetched |
| AuthStore.OrDefault | src/stores/authStore.ts:76-112 | a message the server gave and that is non-empty is shown as given; a missing, null or empty one becomes the store's default text |
| AuthStore.Restored | src/stores/authStore.ts:17-29 | something is restored exactly when a non-empty token and a stored user are present and the user text parses without throwing; the restored user is present exactly when it parsed to a session (a parsed `null` restores no user), and the header uses the stored token |
| AuthStore.AfterInit | src/stores/authStore.ts:17-36 | storage is cleared exactly when a token and a user are stored but the user text throws on parsing; otherwise it is left as it was |
| AuthStore.SessionOf | src/stores/authStore.ts:54-60 | the session built at sign-in carries the token the server issued |
| AuthStore.Parse | src/stores/authStore.ts:23 | the stored text "null" parses to `null` |
| AuthStore.SignInSurvivesReload | src/stores/authStore.ts:17-71 | after a sign-in with a non-empty token, a reload restores the same session and token and leaves storage as it is; an empty token is not restored |
| AuthStore.SignOutSurvivesReload | src/stores/authStore.ts:124-130 | after a sign-out a reload restores nothing and storage stays empty |
| AuthStore.UnparsableDropped | src/stores/authStore.ts:20-34 | a stored token and user that restore nothing means the user is text other than "null" whose parse throws, and after the clean-up nothing is restored on the next reload either |
| AuthStore.NullRestoresNobody | src/stores/authStore.ts:17-29 | a stored user "null" beside a token restores no user yet counts as signed in with that token, and storage is kept |
| AuthStore.Store.constructor | src/stores/authStore.ts:9-14 | the store starts signed out, with no error and no bearer header, over what the browser has stored |
| AuthStore.Store.InitializeAuth | src/stores/authStore.ts:17-36 | a restorable stored user becomes the user (none for a parsed `null`), the store counts as signed in and the bearer header carries the stored token; otherwise the state is untouched; storage is cleared only when the user text throws on parsing |
| AuthStore.Store.Login | src/stores/authStore.ts:44-86 | sign-in succeeds exactly when the server answers with success, and then the session, header and storage hold the issued token; on failure nothing but the error message changes, the server's message or the default |
| AuthStore.Store.Register | src/stores/authStore.ts:89-121 | success exactly when the server answers with success, returning its message or the default; on failure the same message is the error; the session and storage never change |
| AuthStore.Store.Logout | src/stores/authStore.ts:124-130 | the user is signed out, both storage keys removed and the bearer header dropped; the error is kept |
| AuthStore.Store.FetchCurrentUser | src/stores/authStore.ts:133-157 | on success a signed-in user's id, name, username and role are refreshed, the token kept and the stored copy rewritten; otherwise, or when nobody is signed in, nothing changes |
| AuthStore.Store.ChangePassword | src/stores/authStore.ts:160-191 | success exactly when the server answers with success; a refusal shows the server's message and stores it as the error even when it is absent; a failed request stores and returns the same message |
| AuthStore.IsAdminIsHasRole | src/stores/authStore.ts:194-201 | being admin is having the role 'admin', and with nobody signed in no role is held |

## Left out

- The MySQL pool and SQL evaluation are not modelled: the aggregates (AVG, ROUND, the percentages), DATE_FORMAT and the month-name CASE tables run in the server and are partly floating point. Tables are abstract. What a query returns, or that it throws, is an input to the operation that sends it.
- bcrypt, jsonwebtoken, uuid and the date formatting library are uninterpreted: a hash is `VHash(secret)`, a formatted date is `VYmd(value)`, and a token's decoding is an input.
- The clock and uuids are parameters: the current year in `yearModel.ts` and `yearController.ts`, the registration date and the uuid in `registrationModel.ts:141-142`, and the ids in `studentModel.ts`, `userModel.ts` and `paymentModel.ts`.
- `Promise.all` in `reportController.ts:177-189` and `reportModel.ts:910-935` is given sequential semantics.
- The race between reading the largest student id and inserting the next one (`studentModel.ts:223-229`) is not modelled, because the model has no concurrency.
- Amounts and payments are integers; JavaScript numbers are floating point.
- ReportController.TotalAmount: a decimal text reads as a number only when it is a whole number, optionally followed by a point and zeros, with an optional sign. A fraction that is not zero, an exponent, a hexadecimal or "Infinity" reads as NaN, because the model's numbers are integers.
- ReportController.TotalAmountAsWritten: the amounts are taken to be text, numbers, booleans, null or missing. Those are the values the driver delivers for a SUM; dates and other objects, which `+` would turn into text, are not modelled.
- Console logging is left out, and so is the Lao wording of messages. Each message is a constructor of a message datatype. The Lao data constants, such as the default nationality, are kept, except in the fallback levels and classes of `commonModel.ts`: their names are a Lao word followed by the grade or room number, and the model keeps only that number.
- The report controller takes each report's outcome as an input, including a thrown error. The report model as written catches its own errors and returns its fallbacks, so with it the controller's 500 answers are not reached.
- `commonModel.ts:148-160`: the outer fallback of `getClasses` follows an error outside the inner try. The inner try already catches every error of the probe and the query, so `CommonModel.GetClasses` never takes it. `CommonModel.OuterFallback` states what it would return.
- `registrationController.ts:39-70`: `getCurrentRegistrations` and `getStudentByClass` call model methods that `registrationModel.ts` does not define, so they are not modelled.
- `student.ts:139-142` (`delete`) sends the same statement as `StudentModel.DeleteQuery` and has no row of its own.
- The registration calls of the student store and API are not modelled: `fetchRegistrations`, `getRegistrationByInvoiceId`, `searchRegistrations`, `savePayment` and `updateRegistrationPaymentStatus` (`studentStore.ts:211-310`, `studentApi.ts:157-205`). They pass the server's answer through or log it.
- The student store's `getAllStudents` (`studentStore.ts:82-85`) is `fetchAllStudents` followed by reading the list. `getFilteredStudents` (`studentStore.ts:88-92`) reads the list. Both are covered by `StudentStore.Store.FetchAllStudents` and the store's `students` field.
- The fetches that run when the store module loads (`studentStore.ts:232-233`) and the call to `initializeAuth` at load (`authStore.ts:39`) are left to the caller, who calls `FetchAllStudents` or `InitializeAuth`.
- AuthStore.Store.Login: a successful answer without a user object makes `login` throw a TypeError, which lands in its catch. The model's successful answer always carries the user.
- AuthStore.Store.Login: `isAuthLoading` is true only while the request is pending. The model's methods are atomic, so between actions it is always false.
- AuthStore.Store.Register: `isAuthLoading` is modelled as for `Login`.
- AuthStore.Store.InitializeAuth: a stored user that parses to something other than an object, a number say, becomes no user, as `null` does; a parsed object is taken as the session it spells out, and the fields it may lack are not modelled.
- The store's reactive fields are module-level singletons shared by every `useStudentStore()` and `useAuthStore()` caller. Each is modelled as one `Store` object.
- StudentStore.TuitionFee: property lookups through the object prototype (a level named `constructor`, say) are not modelled. Only the six listed levels have a fee other than 50000.
- Routing, the server bootstrap, `src/main.ts` and the axios interceptors are wiring only. So are the pass-through models and controllers for levels, classes, tuition rows and payments: `levelModel.ts`, `classModel.ts`, `tuitionModel.ts`, `levelController.ts`, `classController.ts` and `paymentController.ts`.
- The type declaration files hold no behaviour; their records are datatypes here.

## Findings

| source | as written | input that shows it | evidently intended | confidence | as-written member | corrected member |
|---|---|---|---|---|---|---|
| backend/src/controllers/reportController.ts:73 | `sum + item.amount` starts from the number 0, but the monthly `SUM(amount)` (`backend/src/models/reportModel.ts:676`) reaches the handler as a decimal text, because the pool (`backend/src/utils/db.ts:5-13`) does not ask mysql2 for decimal numbers; `+` then concatenates, and line 192 repeats the sum | two months whose sums are "150000.00" and "200000.00": the total is the text "0150000.00200000.00" | the amounts read as numbers and added: 350000 | medium, not executed | ReportController.TotalAmountAsWritten, ReportController.DecimalTotalAsWritten | ReportController.TotalAmount, ReportController.TwoMonthsCorrected |
| backend/src/controllers/tuitionController.ts:54 | `tuitionData.amount <= 0` is false for a missing amount, so a body without an amount passes the check; the INSERT then gets an undefined bind parameter, which mysql2 refuses by throwing, and the client gets 500 instead of 400 | body with id "T1", name, year "2024", level "1" and no amount: 500 | the amount is required and positive, as `updateTuition` (line 83) requires | medium, not executed | TuitionController.CreateAsWritten, TuitionController.MissingAmountIsServerError | TuitionController.Create, TuitionController.CreateRejectsMore |
| backend/src/models/studentModel.ts:167 | `countQuery === ' WHERE ' + …` compares and discards, so the count has no WHERE while `countParams` still carries the filter values | filters with a search text "a": no placeholder, three parameters | the count filtered like the listing, with its placeholders paired | high, not executed | StudentModel.FindAll, StudentModel.CountQueryAsWrittenUnpaired | StudentModel.FindAllCorrected, StudentModel.CountQueryPaired |
| src/stores/studentStore.ts:197-201 | with students but no numeric id, "001" is set and then overwritten by the text of `Math.max()` + 1, "-Infinity" | one student whose id is "abc" | the form's student id becomes "001" | high, not executed | StudentStore.GeneratedAsWritten, StudentStore.NonNumericIdsAsWritten | StudentStore.Generated, StudentStore.Store.GenerateStudentId |
| src/stores/studentStore.ts:181-190 | `startNew` ignores the "001" that `generateStudentId` returns for an empty list, so the new form has no student id | an empty student list | the new form's student id is "001" | medium, not executed | StudentStore.Store.StartNewAsWritten, StudentStore.NewFormKeepsOldIdAsWritten | StudentStore.Store.StartNew, StudentStore.NewForm |
| src/stores/studentStore.ts:182 | `Object.assign(currentStudent, emptyStudent())` leaves `_id` in place, because the empty student has no `_id` key, so a new form started after an edit keeps the edited student's row id | `startEdit` of a student with row id "u1", then `startNew` | the new form has no row id | medium, not executed | StudentStore.NewFormAsWritten, StudentStore.NewFormKeepsOldIdAsWritten | StudentStore.NewForm, StudentStore.Store.StartNew |
