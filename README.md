# homework-helper backend, modelled in Dafny

This project models the Go backend of homework-helper. The backend is a homework service for teachers and students:

- Teachers register by email, confirm the address by a mailed link, and sign in.
- A teacher creates students, who get a generated code word and password. A teacher can also link a student who already exists.
- A teacher hands assignments out as homework, with a deadline, and grades the submissions.
- Students sign in with their code word, submit work with files, rewrite it, or withdraw it.

The model covers the authentication core and the homework lifecycle, as follows.

- **Authentication.**
  - Token issue and parsing, and the services that register, activate and re-password users (`AuthService`).
  - Their store (`AuthPostgres`).
  - The cookie gate in front of every route (`Middleware`).
  - The two validators (`Validate`).
  - The sign-up, sign-in, confirmation and reset handlers (`AuthHandlers`).
- **Homework lifecycle.** A homework row goes from unsolved to solved when a submission arrives, and to graded when it is graded. Withdrawing the submission sends it back to unsolved.
  - The repositories keep this state machine as an invariant of the abstract database (`TeacherPostgres`, `StudentPostgres`, with `Tables.LifecycleOf`).
  - So do the services that pair database changes with file removal (`TeacherService`, `StudentService`).
  - The teacher and student handlers (`TeacherHandlers`, `StudentHandlers`) sit on top.
- **String and format logic.**
  - The SQL SET-clause builder and the repository's reading of it (`TeacherService`, `TeacherPostgres.ApplySet`).
  - The file saver and the display name of stored files (`Saver`).
  - The upload and download loops of the handlers (`Uploads`).
  - The response mappers (`Response`).
  - The code-word and password generator with its insert-if-absent pool (`Codegen`, `GeneratorPostgres`).

How the model is built:

- **The database** is one object, `Tables.Db`.
  - It has a field per table: maps keyed by serial ids, and sequences for the file and link tables.
  - Its invariant `Valid` holds fresh serial counters, unique teacher emails, known statuses, and link rows whose student id was issued by the student counter.
  - `Lifecycle` is the homework state machine. `LinksUnique` says no teacher–student link is duplicated. `CodesIssued` says every student's code word came from the pool.
- **The upload directory** is a `Tables.Disk` object.
- **Repository and service methods** change these objects, with `modifies` clauses naming the tables they touch.
- **Handlers** are functions, or methods where the source fills slices in loops.
  - A handler's services are its parameters (`Api.Services`).
  - It returns the response context, as `Gin.Ctx`, with the ordered log of service calls it made, as `Api.Reply`.
  - So the contracts state which calls happen, in which order, and which status and body each outcome gives.
- **Opaque quantities** are parameters: the password hash, the AES encryption and decryption, the clock, the random draws, the email-format check, `time.Parse`, `os.ReadFile` with base64, and content sniffing.
- **Tokens** are modelled as an abstract encoding of the key id and the claims, checked against the configured key and the clock (`Tokens`).
- **`strconv.Atoi`** is modelled exactly, including the value it returns with a range error (`Text.Atoi`). That value matters to the `err == nil || studentId != 0` dispatch of the teacher's homework listing.

Some behaviour of the code is kept as written:

- `createAssignment` and `attachHomework` do not return after a failed service call. They write a second body after the 500, and the first status sticks (`Gin.JSON`).
- `StudentService.UpdateHomework` removes the submission's files before the graded check. A graded submission keeps its text but loses its files, and the handler then stores the new upload.
- `getAllTeacherHomework` lists by student whenever `Atoi` succeeds or returns a non-zero value. A number past int64 therefore selects the student with the largest int64 id.
- `GetTeacherById` does not look at the active flag. `ParseToken` therefore accepts a session of a teacher who has not confirmed the address. That is harmless for sign-in: sign-in needs an active teacher, so no session token is ever issued to an inactive one.

## Model

| member | source | states |
|---|---|---|
| Text.Atoi | backend/internal/handlers/teacher.go:338-339 | strconv.Atoi on a 64-bit platform: the value always lies in int64; err == nil only on non-empty text; a failed parse gives 0 or the int64 bound the text passes |
| Text.AtoiAccepts | backend/internal/handlers/student.go:150-151 | Atoi succeeds exactly on an optional sign and a non-empty run of digits whose value fits in int64 |
| Text.AtoiIntToString | backend/internal/handlers/teacher.go:113-114 | every int64 printed in decimal reads back through Atoi as itself, with no error |
| Text.ScanUintDigits | backend/internal/handlers/teacher.go:338 | the digit scan of ParseUint gives the value of the digits, or a range error exactly when that value passes 2^64-1 |
| Text.NatToStringValue | backend/pkg/codegen/generator.go:63 | the decimal text that %d prints reads back as the number printed |
| Text.SplitJoin | backend/internal/service/saver.go:42 | splitting a joined list at the separator gives the list back when no piece holds the separator |
| Text.LastOfSplit | backend/internal/handlers/teacher.go:133-135 | the last piece of strings.Split is the text after the last separator |
| Text.Utf8LenAscii | backend/internal/handlers/validate.go:24 | Go's byte length of a string equals its character count when all characters are ASCII |
| Tokens.DecodeEncode | backend/internal/service/auth_service.go:188-203 | a signed token decodes back to the key id and the claims it was signed with |
| Tokens.Verify | backend/internal/service/auth_service.go:231-242 | a token that verifies was signed by the configured key and is not yet expired at `now` |
| Tokens.VerifySigned | backend/internal/service/auth_service.go:231-242 | a token signed with the matching key verifies exactly until its expiry, then fails as expired |
| Tokens.VerifyOtherKey | backend/internal/service/auth_service.go:231-242 | a token signed with another key is refused with the signature error, whatever its claims and the time |
| Tables.UrlsOf | backend/internal/repository/teacher_postgres.go:79-85 | the file query returns only paths of rows of that owner, and every such path |
| Tables.WithoutOwner | backend/internal/repository/teacher_postgres.go:107-113 | deleting an owner's file rows keeps exactly the rows of other owners |
| Tables.UrlsOfWithoutOwner | backend/internal/repository/student_postgres.go:83-89 | after deleting one owner's file rows, every other owner's paths are unchanged and in order, and that owner has none |
| Tables.UrlsOfAppend | backend/internal/repository/student_postgres.go:91-97 | inserting a file row adds its path at the end of its owner's list and changes no other owner's list |
| Tables.WithoutLink | backend/internal/repository/teacher_postgres.go:203-211 | deleting a teacher–student link keeps exactly the other links |
| Tables.WithoutLinkNoDuplicates | backend/internal/repository/teacher_postgres.go:203-211 | deleting a link keeps the link table free of duplicates |
| Tables.LoadWork | backend/internal/repository/teacher_postgres.go:261-279 | the submission is loaded only for a solved or graded homework, and then it answers that homework with its files; the grade is loaded only for a graded one; a missing row ends the call with ErrNoRows |
| Tables.Disk.Remove | backend/internal/service/teacher_service.go:126 | os.Remove deletes the path, and fails with "remove <path>: no such file or directory" exactly when no file is there |
| Tables.RemoveAll | backend/internal/service/teacher_service.go:125-130 | the removal loop removes only stored files; when nothing fails, it removes every listed path |
| Tables.RemoveAllPresent | backend/internal/service/teacher_service.go:125-130 | distinct paths that are all present are all removed, with no error |
| Tables.RemoveAllMissing | backend/internal/service/student_service.go:39-44 | a path missing from the directory makes the removal loop fail |
| Tables.RemoveFiles | backend/internal/service/student_service.go:39-44 | the removal loop leaves the directory as RemoveAll says, and on failure returns "failed to delete file <path>: <os error>" for the first missing path |
| AuthPostgres.CreateTeacher | backend/internal/repository/auth_postgres.go:21-32 | the insert fails exactly when the email is taken, always as "the user with this email is already registered", and then stores nothing; otherwise a fresh inactive teacher with the given fields is stored under the new id |
| AuthPostgres.CreateStudent | backend/internal/repository/auth_postgres.go:34-49 | the student is stored under a fresh id and linked to the teacher; links stay unique, and code words stay issued when the word was free |
| AuthPostgres.GetCodeWord | backend/internal/repository/auth_postgres.go:51-82 | a free word exists exactly when the call succeeds; the word returned was unused, comes with its stored password and is now marked used; with no free word it fails with ErrNoRows and changes nothing |
| AuthPostgres.GetTeacher | backend/internal/repository/auth_postgres.go:84-94 | succeeds exactly when a teacher with this email and password hash is active; every failure is "wrong email or password" |
| AuthPostgres.GetTeacherById | backend/internal/repository/auth_postgres.go:96-106 | passes exactly when the teacher exists, whatever its active flag; otherwise "user does not exist" |
| AuthPostgres.GetTeacherByEmail | backend/internal/repository/auth_postgres.go:108-115 | finds only an active teacher with that email; otherwise ErrNoRows |
| AuthPostgres.GetStudent | backend/internal/repository/auth_postgres.go:117-127 | succeeds exactly when a student has this code word and password hash; every failure is "wrong codeword or password" |
| AuthPostgres.GetStudentById | backend/internal/repository/auth_postgres.go:129-139 | passes exactly when the student exists; otherwise "user does not exist" |
| AuthPostgres.ActivateUser | backend/internal/repository/auth_postgres.go:141-148 | sets is_active on that teacher only and keeps every other row; a teacher who is already active is left as it was, so the call is idempotent |
| AuthPostgres.UpdateStudentPassword | backend/internal/repository/auth_postgres.go:150-168 | a missing student gives ErrNoRows and a different stored hash gives "passwords don't match", both changing nothing; on a match only that student's hash is replaced |
| AuthPostgres.UpdateTeacherPassword | backend/internal/repository/auth_postgres.go:170-177 | replaces that teacher's hash with no check of the old one, and changes nothing else |
| GeneratorPostgres.UsedWords | backend/internal/repository/generator_postgres.go:22 | the used words are exactly the pool words marked used |
| GeneratorPostgres.CountUsedCodes | backend/internal/repository/generator_postgres.go:19-28 | the count equals the number of words marked used, and is at most the pool size |
| GeneratorPostgres.SaveToDB | backend/internal/repository/generator_postgres.go:30-38 | a new word enters unused with the given password; an existing word leaves the pool unchanged; the used words never change |
| AuthService.IssuedTokens | backend/internal/service/auth_service.go:48-229 | session tokens carry id and role and live 12 hours, confirmation and reset tokens carry only the id and live 10 minutes; every token expires strictly after it is issued |
| AuthService.CreateTeacher | backend/internal/service/auth_service.go:48-70 | a taken email gives the repository's duplicate-email error and stores nothing; otherwise the teacher is stored inactive with the hash of the password (never the plaintext), and the result is the signed 10-minute confirmation token for the new id |
| AuthService.CreateStudent | backend/internal/service/auth_service.go:72-102 | an empty pool gives ErrNoRows and changes nothing; on success the student takes a free code word (now marked used), is stored with the hash of the decrypted password, is linked to the teacher, and the caller gets the plaintext password; a failure registers nobody, and a failed decryption still leaves the word it took marked used |
| AuthService.UpdateStudentPassword | backend/internal/service/auth_service.go:108-117 | only hash(old) and hash(new) reach the store: a stored hash different from hash(old) gives "passwords don't match" and changes nothing; on a match the stored hash becomes hash(new) |
| AuthService.UpdateTeacherPassword | backend/internal/service/auth_service.go:119-127 | the teacher's stored hash becomes hash(new), with no other check |
| AuthService.ConfirmationMail | backend/internal/service/auth_service.go:129-134 | the confirmation mail goes to the given address and its body ends in the link prefix followed by the token verbatim |
| AuthService.ResetMail | backend/internal/service/auth_service.go:136-141 | the reset mail goes to the given address and its body ends in the reset link prefix followed by the token verbatim |
| AuthService.SendConfirmationEmail | backend/internal/service/auth_service.go:128-133 | the sender gets the confirmation mail for that address and token, and its error is returned unchanged |
| AuthService.SendResetEmail | backend/internal/service/auth_service.go:135-140 | the sender gets the reset mail for that address and token, and its error is returned unchanged |
| AuthService.ConfirmEmail | backend/internal/service/auth_service.go:143-157 | succeeds exactly when the token verifies, with the id it carries; otherwise the verification error |
| AuthService.GenerateResetToken | backend/internal/service/auth_service.go:159-175 | fails exactly when the signing key is missing; otherwise the token decodes to the id with a 10-minute lifetime |
| AuthService.ActivateUser | backend/internal/service/auth_service.go:177-179 | sets is_active on that teacher only |
| AuthService.GetTeacherByEmail | backend/internal/service/auth_service.go:104-106 | finds only an active teacher with that email |
| AuthService.GenerateTeacherToken | backend/internal/service/auth_service.go:181-204 | the password is hashed before the lookup; a failed lookup is "wrong email or password" and gives no token; a matching active teacher gets a token exactly when the signing key is configured, and otherwise the key error; a token decodes to the teacher's id, role 0 and a 12-hour lifetime |
| AuthService.GenerateStudentToken | backend/internal/service/auth_service.go:206-229 | the same for students: the lookup by code word and hash fails as "wrong codeword or password"; a matching student gets a token exactly when the signing key is configured, and otherwise the key error; a token decodes to the student's id, role 1 and a 12-hour lifetime |
| AuthService.SignClaims | backend/internal/service/auth_service.go:197-203 | signing fails exactly when the private key is missing; the signed text decodes back to the claims |
| AuthService.ParseToken | backend/internal/service/auth_service.go:231-255 | a verification error is returned as it is; a verified token yields its id and role (0 when absent) only while the principal exists, looked up among students for role 1 and among teachers for every other role; otherwise "user does nit exist" |
| AuthService.ParseResetToken | backend/internal/service/auth_service.go:257-272 | succeeds exactly when the token verifies, with the id it carries |
| AuthService.SessionRoundTrip | backend/internal/service/auth_service.go:181-255 | a session token parses back to exactly its id and role until 12 hours after issue, while its principal exists, and fails as expired afterwards |
| AuthService.SessionOfDeletedPrincipal | backend/internal/service/auth_service.go:244-252 | a fresh session token whose principal is gone is refused with "user does nit exist" |
| AuthService.ConfirmationRoundTrip | backend/internal/service/auth_service.go:143-272 | a confirmation token gives its id back to ConfirmEmail and ParseResetToken for 10 minutes, and fails as expired afterwards |
| AuthService.ConfirmationTokenIsTeacherSession | backend/internal/service/auth_service.go:231-254 | as written: a fresh confirmation token passes ParseToken as a role-0 session for any registered teacher, active or not |
| AuthService.SessionTokenIsResetToken | backend/internal/service/auth_service.go:257-272 | as written: a fresh student session token passes ParseResetToken and yields its id |
| AuthService.ParseSessionToken | backend/internal/service/auth_service.go:239-242 | corrected: accepts only payloads with a role, and then agrees with ParseToken |
| AuthService.ParseResetOnly | backend/internal/service/auth_service.go:266-269 | corrected: accepts only payloads without a role, and then agrees with ParseResetToken |
| AuthService.CorrectedParsersSeparateKinds | backend/internal/service/auth_service.go:231-272 | the corrected parsers keep every legitimate use and refuse a confirmation token as a session and a session token as a reset token |
| Middleware.Identity | backend/internal/handlers/middleware.go:11-36 | a missing cookie or one without "Bearer " is 401 "invalid auth cookie", a bare "Bearer " is 401 "token is empty", a token that does not parse is 401 with the parser's error, a role other than the gate's is 403; user_id is set, and the chain goes on, exactly when all checks pass, and then to the id the token carries |
| Middleware.TeacherIdentity | backend/internal/handlers/middleware.go:11-36 | lets through only a cookie whose token parses to role 0, with that token's id |
| Middleware.StudentIdentity | backend/internal/handlers/middleware.go:38-63 | lets through only a cookie whose token parses to role 1, with that token's id |
| Middleware.SignInCookieRoundTrip | backend/internal/handlers/middleware.go:12-35 | the cookie sign-in sets reaches the parser as exactly the token issued, and its holder is let through the gate of the token's role |
| Middleware.GatesExclusive | backend/internal/handlers/middleware.go:11-63 | no cookie passes both the teacher and the student gate |
| Validate.StrongPassword | backend/internal/handlers/validate.go:21-31 | a password is accepted exactly when it holds 8 to 64 UTF-8 bytes and an ASCII digit |
| Validate.StrongPasswordExamples | backend/internal/handlers/auth_test.go:54 | mirrors the handler tests: "1234" and "123" are refused; "qwerty123" is accepted |
| Validate.ValidName | backend/internal/handlers/validate.go:9-19 | a name is accepted exactly when it is non-empty and every blank-separated part is a capital (Latin or Cyrillic, Ё included) followed by one or more small letters |
| Validate.AcceptsWords | backend/internal/handlers/validate.go:14-18 | the automaton of the name pattern accepts exactly the blank-separated sequences of words |
| Validate.EmptyCheckRedundant | backend/internal/handlers/validate.go:11-13 | the up-front empty check changes nothing: the pattern alone already refuses "" |
| Validate.TwoWords | backend/internal/handlers/validate.go:9-19 | a first and a last word joined by one blank form a valid name |
| Validate.ValidNameAccepts | backend/internal/handlers/auth_test.go:31 | mirrors the sign-up test: "Михаил Иванович" is a valid name |
| Validate.ValidNameShape | backend/internal/handlers/validate.go:14-18 | a valid name starts with a capital, ends with a small letter, and every blank in it is followed by a capital |
| Validate.ValidNameRefuses | backend/internal/handlers/validate.go:9-19 | the empty name, a name starting without a capital, a trailing blank and two blanks in a row are all refused |
| Response.NewStudentsResponse | backend/internal/handlers/response.go:59-71 | one record per student, in order, with id, name, code word and class, and nothing else |
| Response.NewAssignmentsResponse | backend/internal/handlers/response.go:73-85 | one record per assignment, in order, with id, title, description and creation time |
| Response.NewHomeworksTeacherResponse | backend/internal/handlers/response.go:87-103 | one record per homework, in order, with the eight fields the teacher sees |
| Response.NewHomeworksStudentResponse | backend/internal/handlers/response.go:105-119 | one record per homework, in order, with the six fields the student sees |
| Response.NewTeachersStudentResponse | backend/internal/handlers/response.go:121-131 | one record per teacher, in order, with only id and name |
| Response.SecretsNotShown | backend/internal/handlers/response.go:59-131 | records that differ only in password (and, for teachers, email and activation) map to the same response record |
| Codegen.PasswordOf | backend/pkg/codegen/generator.go:66-76 | a password has one symbol per draw |
| Codegen.GenerateSimplePassword | backend/pkg/codegen/generator.go:66-76 | the builder loop spells exactly the password of its eight draws, symbol by symbol in draw order |
| Codegen.PasswordShape | backend/pkg/codegen/generator.go:19-73 | a password has eight symbols, all letters or digits, and never the digit 8 or 9, because the draws stop at 60 of the 62 symbols |
| Codegen.CodeWordOf | backend/pkg/codegen/generator.go:58-64 | a code word is the adjective, one underscore, the noun and one or two digits, and ends in a digit |
| Codegen.CodeWordSplits | backend/pkg/codegen/generator.go:58-64 | for word lists without underscores, splitting a code word at the underscore gives back the adjective and the noun with its number, and the number reads back as itself |
| Codegen.FirstFailure | backend/pkg/codegen/generator.go:40-52 | names the first round whose encryption fails (or the number of rounds): every round before it encrypts |
| Codegen.FillKeeps | backend/pkg/codegen/generator.go:40-52 | refilling keeps every word already in the pool as it was and adds only unused words |
| Codegen.FillKeepsUsed | backend/pkg/codegen/generator.go:40-52 | refilling marks no word used and frees none |
| Codegen.Words | backend/pkg/codegen/generator.go:41 | holds the word of every round so far |
| Codegen.FillWords | backend/pkg/codegen/generator.go:40-52 | the refilled pool's words are the old words plus exactly the generated ones |
| Codegen.SaveRound | backend/pkg/codegen/generator.go:41-51 | one round: a failed encryption is returned and saves nothing; otherwise the round's word is saved unused with the encrypted password, unless it is already in the pool |
| Codegen.FillPool | backend/pkg/codegen/generator.go:40-52 | the 3000-round loop leaves the pool filled with the rounds up to the first failed encryption, returns that round's error or success, and never changes which words are used |
| Codegen.FillRound | backend/pkg/codegen/generator.go:41-51 | a round either extends the fill by its word or is the first failing round and leaves the pool alone |
| Codegen.Generate | backend/pkg/codegen/generator.go:23-56 | nothing happens unless no word or more than 3000 words are used; then an error loading either word list is returned with the pool unchanged, an empty word list ends in the Intn panic before anything is saved, and otherwise the pool is refilled as FillPool states; the used words never change |
| Saver.SaveFile | backend/internal/service/saver.go:15-50 | an upload is stored exactly when it can be read, its sniffed type is on the allow-list and writing succeeds, with each step's error otherwise ("unsupported file type: " and the type for a refused type); the stored path lies in the upload directory and its base is the time, an underscore and the original name |
| Saver.StoredPathParts | backend/internal/service/saver.go:42-43 | the stored path's base name reads back as the decimal time and, after the first underscore, the original name |
| Saver.DistinctInstantsDistinctPaths | backend/internal/service/saver.go:42-43 | uploads saved in one directory at different instants get different paths |
| Saver.DisplayNamePlain | backend/internal/handlers/teacher.go:133-135 | a file whose original name has no underscore is shown under that name |
| Saver.DisplayNameTruncates | backend/internal/handlers/teacher.go:133-135 | as written: an original name with an underscore is shown without everything up to its last underscore; the same split shows every file in teacher.go (lines 380-383 and 395-398) and student.go (lines 187-191 and 202-206) |
| Saver.OriginalName | backend/internal/service/saver.go:42 | corrected display name: never longer than the path |
| Saver.OriginalNameRecovers | backend/internal/service/saver.go:42-43 | corrected: cutting the time and the first underscore off the base name gives back the uploaded file's own name, underscores included |
| Uploads.SaveUploads | backend/internal/handlers/teacher.go:84-94 | the upload loop makes exactly the calls and reaches exactly the outcome of its reference definition SaveAll: turn by turn, empty parts skipped where the handler skips them, each kept part stored and its path recorded under the owner, stopping at the first error |
| Uploads.KeptNames | backend/internal/handlers/student.go:49-62 | the parts to be stored are at most the parts of the form |
| Uploads.UploadedNamesAppend | backend/internal/handlers/student.go:105-118 | the names handed to the saver by two runs of calls are the names of the first followed by those of the second |
| Uploads.SaveAllUploadsKept | backend/internal/handlers/student.go:105-118 | a completed loop hands every kept part to the saver, in form order, and no skipped one; a loop that stopped early handed over a prefix of them |
| Uploads.SaveAllRowsOfOwner | backend/internal/handlers/teacher.go:84-94 | every file row the loop writes is for the assignment or submission being saved |
| Uploads.SaveAllStops | backend/internal/handlers/teacher.go:86-93 | once the loop fails, the parts after the failing one are never looked at |
| Uploads.EmptyPartsSaveNothing | backend/internal/handlers/teacher.go:179-182 | a form whose parts are all empty saves nothing when empty parts are skipped |
| Uploads.FirstUnreadable | backend/internal/handlers/teacher.go:126-131 | names the first file that cannot be read; every file before it can be |
| Uploads.ReadCalls | backend/internal/handlers/teacher.go:126-127 | one ReadFile call per path, in order |
| Uploads.ReadFiles | backend/internal/handlers/teacher.go:125-138 | reads the files in order up to and including the first that fails; fails exactly when one fails, with that file's error; otherwise one record per path with its shown name and content |
| Uploads.ReadEntries | backend/internal/handlers/teacher.go:125-138 | the loop with the per-file record as a parameter: the count of reads is one past the first unreadable file, or all of them; it fails exactly when a file cannot be read, with that file's error; otherwise one record per path, in order, built from the path and its content |
| Uploads.StoredFileShownByName | backend/internal/handlers/teacher.go:133-136 | a stored file whose original name has no underscore is shown under that name |
| AuthHandlers.SessionCookie | backend/internal/handlers/auth.go:72 | the sign-in cookie is named Authorization, holds "Bearer " and the token, lasts a day and is HttpOnly |
| AuthHandlers.SignUpTeacher | backend/internal/handlers/auth.go:21-52 | a body that does not bind or fails validation is 400 with no service call; the teacher is created with id 0; a duplicate email is 400 and any other creation error 500; 200 with the registration message exactly when creation and the confirmation mail both succeed, the mail carrying the token creation returned |
| AuthHandlers.SignIn | backend/internal/handlers/auth.go:54-73 | a sign-in makes its one token call; a failure is 401 exactly for the wrong-credentials error and 500 otherwise, and sets no cookie; success sets the session cookie for the token and answers 200 |
| AuthHandlers.SignInTeacher | backend/internal/handlers/auth.go:54-73 | teacher sign-in: 401 exactly for "wrong email or password", 500 for other failures, the session cookie on success |
| AuthHandlers.SignInStudent | backend/internal/handlers/auth.go:75-94 | student sign-in: 401 exactly for "wrong codeword or password", 500 for other failures, the session cookie on success |
| AuthHandlers.SignInThenGate | backend/internal/handlers/auth.go:72 | the cookie a teacher's sign-in sets carries the token back through the teacher gate, which lets the token's teacher through |
| AuthHandlers.SignOut | backend/internal/handlers/auth.go:96-102 | sign-out calls nothing, overwrites the Authorization cookie with an empty expired one and answers 200 |
| AuthHandlers.ConfirmEmail | backend/internal/handlers/auth.go:104-124 | an empty token is 400; a token that fails confirmation is 400 with its error; otherwise the user it names is activated, a failed activation is 500 without aborting, and the answer is 200 exactly when both steps pass |
| AuthHandlers.RequestPasswordReset | backend/internal/handlers/auth.go:126-157 | an address that does not bind is 400; an unknown or inactive address is 404; otherwise a reset token is made for that teacher and mailed to the address; a failed token or a failed mail is 500 with its error; 200 exactly when all three calls succeed |
| AuthHandlers.ResetPassword | backend/internal/handlers/auth.go:159-190 | a missing password is 400 and a weak one 400 with no call; a reset token that does not parse is 500 without aborting; otherwise the password of the teacher the token names is replaced, and 200 exactly when that succeeds |
| AuthHandlers.WeakPasswordsRefused | backend/internal/handlers/auth_test.go:468-552 | the weak passwords of the handler tests are refused before any service call |
| AuthHandlers.SignUpOnlyValid | backend/internal/handlers/auth.go:21-37 | every sign-up that reaches the services has a valid name and a strong password |
| TeacherHandlers.CreateAssignment | backend/internal/handlers/teacher.go:52-99 | an empty title is 400 with no call; a failing creation is answered 500 but the handler goes on, writing a second body; an empty form with no description is refused; otherwise every part is stored under the new assignment; 200 with the new id exactly when creation and every save succeed |
| TeacherHandlers.GetAssignments | backend/internal/handlers/teacher.go:101-109 | one service call; its error is 500, its list is answered as the assignment records in order |
| TeacherHandlers.GetAssignment | backend/internal/handlers/teacher.go:111-147 | a non-numeric id is 400 with no call; a lookup error is 500; the files are read in order up to the first unreadable one, whose error is 500; otherwise the assignment is answered with every file under its shown name |
| TeacherHandlers.UpdateAssignment | backend/internal/handlers/teacher.go:149-203 | a bad id or form is 400; the old files are deleted exactly when the form has parts; 200 with the id exactly when the deletion, every save of a non-empty part and the update all succeed, and then the calls are the deletion, the saves and the update, in that order |
| TeacherHandlers.AttachAssignment | backend/internal/handlers/teacher.go:205-230 | a body missing a required field is 400 and a deadline that does not parse is 400 with its error, both with no call; otherwise one call with the parsed deadline; a service error is 500 with that error, and success is 200 with the new homework id |
| TeacherHandlers.DeleteAssignment | backend/internal/handlers/teacher.go:232-248 | a bad id is 400; otherwise one call, 200 with whether the assignment went, or 500 with the service's error |
| TeacherHandlers.AttachStudent | backend/internal/handlers/teacher.go:250-285 | no action is 400 with the binder's text and an unknown action 400 "invalid action"; "create" makes a student and answers 200 with its login and plaintext password, or 500 with the service's error; "attach" links by code word, 404 when that fails |
| TeacherHandlers.GetStudents | backend/internal/handlers/teacher.go:287-295 | one call; its error is 500, its list is answered as the student records in order |
| TeacherHandlers.GetStudent | backend/internal/handlers/teacher.go:297-315 | a bad id is 400; otherwise one call, 500 on error, the student without the password on success |
| TeacherHandlers.DeleteStudent | backend/internal/handlers/teacher.go:317-334 | a bad id is 400; a failed unlink is 400 with its error; 200 exactly when the unlink succeeds |
| TeacherHandlers.HomeworkListing | backend/internal/handlers/teacher.go:336-350 | an empty or non-numeric query lists all the teacher's homework; a query Atoi accepts selects the student it names (Atoi's value is used even when it errs) |
| TeacherHandlers.NumberQuerySelectsStudent | backend/internal/handlers/teacher.go:338-345 | any printed int64 selects that student, "0" included |
| TeacherHandlers.TextQueryListsAll | backend/internal/handlers/teacher.go:338-350 | a query that does not start with a digit or a sign lists everything |
| TeacherHandlers.OverflowQuerySelectsClamped | backend/internal/handlers/teacher.go:338-345 | a number past int64 is clamped to the largest int64 and still selects a student by it |
| TeacherHandlers.GetAllTeacherHomework | backend/internal/handlers/teacher.go:336-357 | one listing call as HomeworkListing chooses; its error is 500, its list is answered as the homework records in order |
| TeacherHandlers.GetTeacherHomework | backend/internal/handlers/teacher.go:359-418 | a bad id is 400; a lookup error is 500; 200 exactly when every assignment file and every submission file can be read, and then the files are read in that order and all shown |
| TeacherHandlers.GradeHomework | backend/internal/handlers/teacher.go:420-443 | a bad id is 400; a missing or zero grade is refused by the binder with no call; otherwise one call, 500 on error, the grade id on success |
| TeacherHandlers.UpdateTeacherHomework | backend/internal/handlers/teacher.go:445-475 | a bad id, a body that does not bind or a deadline that does not parse is 400 with no call; otherwise one call with the parsed deadline, answered with the id and whether the homework was updated |
| TeacherHandlers.DeleteTeacherHomework | backend/internal/handlers/teacher.go:477-493 | a bad id is 400; otherwise one call, 500 on error, whether it was deleted on success |
| StudentHandlers.AttachHomework | backend/internal/handlers/student.go:20-67 | a bad id is 400 with no call; a failed submission is answered 500 and the handler goes on; a form without parts is refused after the submission was made; otherwise every non-empty part is stored under the new submission; 200 with its id exactly when the submission and every save succeed |
| StudentHandlers.UpdateStudentHomework | backend/internal/handlers/student.go:69-123 | a bad id is 400; the text is updated first, 500 on error; a form without parts is then 400; otherwise the old files are deleted and the non-empty parts stored; 200 with whether the submission was updated exactly when every step succeeds |
| StudentHandlers.DeleteStudentHomework | backend/internal/handlers/student.go:125-141 | a bad id is 400; otherwise one call, a refusal is 400 with its error, success says whether the submission was deleted |
| StudentHandlers.TeacherFilter | backend/internal/handlers/student.go:147-155 | no ?id filters by teacher 0, that is none; otherwise the filter is accepted exactly when Atoi accepts it, with Atoi's value |
| StudentHandlers.TeacherFilterReadsId | backend/internal/handlers/student.go:149-151 | a printed int64 teacher id is read back as that id |
| StudentHandlers.TeacherFilterRefusesText | backend/internal/handlers/student.go:150-153 | a filter that does not start with a digit or a sign is refused with "invalid teacher id" |
| StudentHandlers.GetAllStudentHomework | backend/internal/handlers/student.go:143-164 | a refused filter is 400 with no call; otherwise one call with the filter's teacher id, 500 on error, the homework records in order on success |
| StudentHandlers.GetStudentHomework | backend/internal/handlers/student.go:166-224 | a bad id is 400; a lookup error is 500; 200 exactly when every assignment file and every submission file can be read, and then all are read in that order and shown |
| StudentHandlers.GetStudentTeachers | backend/internal/handlers/student.go:226-236 | one call; its error is 500, its list is answered as id and name records in order |
| StudentHandlers.UpdatePassword | backend/internal/handlers/student.go:238-266 | a body without both passwords is 400 and a weak new password 400, both with no call; otherwise one call; "passwords don't match" is 400, any other failure 500, success answers updated |
| StudentHandlers.WeakNewPasswordRefused | backend/internal/handlers/student_test.go:606-710 | the weak new password of the handler tests never reaches the service |
| TeacherService.BuildSetClause | backend/internal/service/teacher_service.go:78-93 | the SET clause names exactly the non-empty fields, title before description, numbered from $1 and joined by " ,"; the arguments are those fields in the same order |
| TeacherService.JoinWith | backend/internal/service/teacher_service.go:93 | joining nothing gives "", one item gives the item, two items give them with the separator between |
| TeacherService.TrimUnpadded | backend/internal/repository/teacher_postgres.go:69-77 | text with no blank at either end is its own trim |
| TeacherService.TrimDigitParam | backend/internal/service/teacher_service.go:83 | a placeholder $c is its own trim and reads as the digit c |
| TeacherService.TrimPadded | backend/internal/service/teacher_service.go:93 | the blank the join leaves after an item is trimmed away |
| TeacherService.SplitsOnce | backend/internal/service/teacher_service.go:83-88 | an item `column=value` splits at its one '=' into column and value |
| TeacherService.ItemReads | backend/internal/service/teacher_service.go:83-88 | an item whose trim is `column=$c` for a non-zero digit c reads as a setting of column from parameter c |
| TeacherService.ItemParses | backend/internal/service/teacher_service.go:83-93 | an item `column=$d`, with at most one blank after it, reads back as column and d |
| TeacherService.ParsesOne | backend/internal/service/teacher_service.go:93 | a one-item clause parses as its one setting |
| TeacherService.ParsesTwo | backend/internal/service/teacher_service.go:93 | a two-item clause parses as its two settings in order |
| TeacherService.AppliesParsed | backend/internal/service/teacher_service.go:99 | a clause whose items parse, name distinct known columns and use exactly the arguments given is applied as the settings say |
| TeacherService.SingleItemParses | backend/internal/service/teacher_service.go:82-88 | `title=$1` and `description=$1` each read as one setting from $1 |
| TeacherService.SingleItemClause | backend/internal/service/teacher_service.go:82-99 | a one-field update sets exactly that column to the one argument |
| TeacherService.TwoItemParses | backend/internal/service/teacher_service.go:82-93 | `title=$1 ,description=$2` reads as the title from $1 and the description from $2 |
| TeacherService.NumberedItemParses | backend/internal/service/teacher_service.go:83-93 | each item the builder writes, with or without the blank the join leaves, reads back as its column and number |
| TeacherService.TwoItemClause | backend/internal/service/teacher_service.go:82-99 | a two-field update sets the title from the first argument and the description from the second |
| TeacherService.BuiltClauseApplies | backend/internal/service/teacher_service.go:77-100 | the clause the builder makes, applied by the repository, changes exactly the non-empty fields of the row |
| TeacherService.UpdateAssignment | backend/internal/service/teacher_service.go:77-100 | with neither field given it fails with "no fields to update" and writes nothing; otherwise the assignment, when it exists, gets the non-empty fields and keeps the rest |
| TeacherService.AttachAssignment | backend/internal/service/teacher_service.go:36-38 | the arguments reach the repository reordered, and the new homework row has the deadline, title and description each in its own column, unsolved, under a fresh id |
| TeacherService.GradeHomework | backend/internal/service/teacher_service.go:40-47 | a homework without a submission, or whose submissions are all graded, is refused with "homework already graded" and nothing is written; a homework whose submissions are all ungraded is always graded; on success a fresh grade is stored for that submission and its student, the submission is marked graded and the homework graded |
| TeacherService.DeleteFiles | backend/internal/service/teacher_service.go:119-133 | the assignment's files are removed in row order; the first that cannot be removed fails the call with its path and the rows stay; otherwise every file row of the assignment goes |
| TeacherService.DeleteAssignment | backend/internal/service/teacher_service.go:106-117 | an assignment with homework attached is kept and answered false; otherwise it is deleted, then its files, and the answer is true exactly when every file could be removed |
| StudentService.DeleteFiles | backend/internal/service/student_service.go:33-47 | the submission's files are removed in row order; the first that cannot be removed fails the call with its path and the rows stay; otherwise every file row of the submission goes |
| StudentService.UpdateHomework | backend/internal/service/student_service.go:25-31 | the files go first, even for a graded submission; a failed removal stops the call; then the text and time are rewritten only while the submission is ungraded, and the answer says whether they were |
| StudentService.GetAllHomeworks | backend/internal/service/student_service.go:53-58 | teacher id 0 lists every homework of the student, any other id only that teacher's |
| StudentService.DeleteHomework | backend/internal/service/student_service.go:68-78 | a missing submission is ErrNoRows and a graded one false, both changing nothing; otherwise the submission is withdrawn, its homework goes back to unsolved, its files are removed, and the answer is true exactly when every file could be removed |
| TeacherPostgres.CreateAssignment | backend/internal/repository/teacher_postgres.go:28-39 | the new assignment gets the next serial id, which was free, with the given fields and the current time; nothing else changes |
| TeacherPostgres.GetAssignments | backend/internal/repository/teacher_postgres.go:41-50 | lists exactly the teacher's assignments, each with the teacher column read as zero |
| TeacherPostgres.GetAssignment | backend/internal/repository/teacher_postgres.go:52-67 | found exactly when the assignment exists and is the teacher's, otherwise ErrNoRows; the result holds only title, description and creation time, with the assignment's file paths in row order |
| TeacherPostgres.TrimLeft | backend/internal/repository/teacher_postgres.go:69-77 | the result is no longer than the input and does not start with a blank |
| TeacherPostgres.TrimRight | backend/internal/repository/teacher_postgres.go:69-77 | the result is no longer than the input and does not end with a blank |
| TeacherPostgres.ParseSetting | backend/internal/repository/teacher_postgres.go:69-77 | an item that reads as `column = $n` names a parameter from 1 up |
| TeacherPostgres.ParseSettings | backend/internal/repository/teacher_postgres.go:69-77 | a clause reads as one setting per item, each with a parameter from 1 up |
| TeacherPostgres.MaxParam | backend/internal/repository/teacher_postgres.go:69-77 | the highest parameter the clause uses bounds every parameter in it |
| TeacherPostgres.Assign | backend/internal/repository/teacher_postgres.go:69-77 | assigning the arguments changes at most the title and the description of the row |
| TeacherPostgres.ApplySet | backend/internal/repository/teacher_postgres.go:69-77 | a SET clause the database accepts changes at most the title and the description |
| TeacherPostgres.UpdateAssignment | backend/internal/repository/teacher_postgres.go:69-77 | a clause the database refuses fails with its error and writes nothing, even for a missing row; an accepted one rewrites the row when it exists and is no error when it does not |
| TeacherPostgres.StoreAssignment | backend/internal/repository/teacher_postgres.go:69-77 | the changed row is written back under its id and nothing else changes |
| TeacherPostgres.GetFiles | backend/internal/repository/teacher_postgres.go:79-85 | lists exactly the paths recorded for the assignment |
| TeacherPostgres.DeleteAssignment | backend/internal/repository/teacher_postgres.go:87-105 | refused with false exactly while some homework was made from the assignment; otherwise the row is deleted and true is answered whether or not it existed |
| TeacherPostgres.DeleteFiles | backend/internal/repository/teacher_postgres.go:107-113 | the assignment has no file rows afterwards, and every other assignment's list is unchanged |
| TeacherPostgres.SaveFile | backend/internal/repository/teacher_postgres.go:115-121 | the path is appended to the assignment's list and no other list changes |
| TeacherPostgres.AttachStudent | backend/internal/repository/teacher_postgres.go:123-162 | ErrNoRows exactly when no student has the code word; an existing link is "student already assigned"; both write nothing; otherwise that student is linked once and returned; links stay unique |
| TeacherPostgres.AttachAssignment | backend/internal/repository/teacher_postgres.go:164-176 | the new homework gets the next serial id, which was free, is unsolved and assigned now; the homework lifecycle invariant is kept |
| TeacherPostgres.GetStudents | backend/internal/repository/teacher_postgres.go:178-189 | lists exactly the students linked to the teacher, with the password not selected |
| TeacherPostgres.GetStudent | backend/internal/repository/teacher_postgres.go:191-201 | found exactly when the student exists, whoever their teacher, otherwise ErrNoRows; id and password are not selected |
| TeacherPostgres.DeleteStudent | backend/internal/repository/teacher_postgres.go:203-212 | removes exactly that link, keeps every other and the student record, and never fails |
| TeacherPostgres.GetAllHomeworks | backend/internal/repository/teacher_postgres.go:214-226 | lists exactly the teacher's homework whose student exists, each joined with its student |
| TeacherPostgres.GetAllHomeworksByStudentId | backend/internal/repository/teacher_postgres.go:228-240 | lists only that student's homework |
| TeacherPostgres.ByStudentIsFilter | backend/internal/repository/teacher_postgres.go:228-240 | listing by student is the teacher's listing filtered to that student |
| TeacherPostgres.GetHomework | backend/internal/repository/teacher_postgres.go:242-282 | ErrNoRows unless the homework and its student exist; the homework comes with its assignment's files; the submission and its files are loaded only for a solved or graded homework, the grade only for a graded one; a solved homework is always found when the lifecycle invariant holds |
| TeacherPostgres.CheckSubmission | backend/internal/repository/teacher_postgres.go:284-293 | found exactly when the homework has a submission, otherwise ErrNoRows; then its id, student and graded flag |
| TeacherPostgres.GradeHomework | backend/internal/repository/teacher_postgres.go:295-330 | the grade gets the next serial id, the submission is marked graded and the homework graded, all three together; grading through the homework's own submission keeps the lifecycle invariant |
| TeacherPostgres.GradeKeepsLifecycle | backend/internal/repository/teacher_postgres.go:295-330 | grading a homework through its own submission keeps every homework's status in step with its submission and grade |
| TeacherPostgres.UpdateHomework | backend/internal/repository/teacher_postgres.go:332-349 | ErrNoRows for a missing homework; a solved or graded one answers false and is left alone; otherwise title, description and deadline are rewritten and true is answered |
| TeacherPostgres.DeleteHomework | backend/internal/repository/teacher_postgres.go:351-369 | ErrNoRows for a missing homework; a solved or graded one answers false and is kept; otherwise it is deleted and true is answered |
| StudentPostgres.AttachHomework | backend/internal/repository/student_postgres.go:21-54 | the submission gets the next serial id, which was free, is ungraded and submitted now; the homework is marked solved in the same transaction; the lifecycle invariant is kept |
| StudentPostgres.InsertSubmission | backend/internal/repository/student_postgres.go:29-38 | the row is stored under the next serial id, which was free |
| StudentPostgres.SubmitKeepsLifecycle | backend/internal/repository/student_postgres.go:21-54 | submitting keeps the lifecycle invariant: the homework becomes solved and has the new, ungraded submission |
| StudentPostgres.UpdateHomework | backend/internal/repository/student_postgres.go:56-73 | ErrNoRows for a missing submission; a graded one answers false and is left alone; otherwise text and submission time are rewritten and true is answered |
| StudentPostgres.RewriteKeepsLifecycle | backend/internal/repository/student_postgres.go:56-73 | rewriting a submission's text keeps the lifecycle invariant |
| StudentPostgres.GetFiles | backend/internal/repository/student_postgres.go:75-81 | lists exactly the paths recorded for the submission |
| StudentPostgres.DeleteFiles | backend/internal/repository/student_postgres.go:83-89 | the submission has no file rows afterwards, and every other submission's list is unchanged |
| StudentPostgres.SaveFile | backend/internal/repository/student_postgres.go:91-97 | the path is appended to the submission's list and no other list changes |
| StudentPostgres.GetAllHomeworks | backend/internal/repository/student_postgres.go:99-110 | lists exactly the student's homework whose assignment and teacher exist, each with that teacher's name |
| StudentPostgres.GetAllHomeworksByTeacherId | backend/internal/repository/student_postgres.go:112-123 | lists only homework that teacher handed out |
| StudentPostgres.ByTeacherIsFilter | backend/internal/repository/student_postgres.go:112-123 | listing by teacher is the student's listing filtered to that teacher |
| StudentPostgres.GetHomework | backend/internal/repository/student_postgres.go:125-165 | ErrNoRows unless the homework joins with its assignment and teacher; its own id is not selected; the submission and its files are loaded only for a solved or graded homework, the grade only for a graded one; a solved homework is always found when the lifecycle invariant holds |
| StudentPostgres.GetTeachers | backend/internal/repository/student_postgres.go:167-175 | lists exactly the teachers linked to the student, with only id and name |
| StudentPostgres.DeleteHomework | backend/internal/repository/student_postgres.go:177-201 | ErrNoRows for a missing submission; a graded one answers false and nothing changes; otherwise the submission is deleted and its homework goes back to unsolved, in one transaction |
| StudentPostgres.RemoveSubmission | backend/internal/repository/student_postgres.go:177-201 | the one submission row is deleted and nothing else |
| StudentPostgres.WithdrawKeepsLifecycle | backend/internal/repository/student_postgres.go:177-201 | withdrawing an ungraded submission keeps the lifecycle invariant, because its homework is reset to unsolved |
| Tables.InsertGrade | backend/internal/repository/teacher_postgres.go:309-313 | the grade is stored under the next serial id, which was free, and nothing else changes |
| Tables.MarkGraded | backend/internal/repository/teacher_postgres.go:315-318 | only that submission's graded flag is set |
| Tables.SetStatus | backend/internal/repository/teacher_postgres.go:320-323 | only that homework's status changes |
| Text.Split | backend/internal/handlers/teacher.go:133 | strings.Split gives at least one piece; text without the separator is its own single piece, and text with it splits into two or more |
| Text.SplitAtSeparator | backend/internal/handlers/teacher.go:133 | splitting at the first separator gives the text before it, then the pieces of the rest |
| Text.TrimPrefix | backend/internal/handlers/middleware.go:18 | with the prefix present the prefix followed by the result is the input; without it the input is kept |
| Text.IntToString | backend/pkg/codegen/generator.go:63 | %d gives at least one character, starting with '-' exactly for negative numbers |
| Text.ParseDecimalIntToString | backend/internal/service/saver.go:42 | the decimal text of any integer reads back as that integer |
| Text.ScanUintRejects | backend/internal/handlers/teacher.go:338 | a text with a character that is not a digit never scans as a number |
| Text.Utf8Len | backend/internal/handlers/validate.go:24 | Go's byte length of a string lies between its character count and four times that |
| Tokens.Encode | backend/internal/service/auth_service.go:197-203 | a signed token is never empty |
| Tokens.ParseRoleText | backend/internal/service/auth_service.go:239-242 | the role field of the claims reads back as it was written, present or absent |
| Gin.Status | backend/internal/handlers/response.go:54-57 | a written status is the status the client sees |
| Gin.JSON | backend/internal/handlers/teacher.go:96-98 | the first status written sticks and the body is written after the earlier ones; cookies, abort flag and user id are kept |
| Gin.ErrorResponse | backend/internal/handlers/response.go:54-57 | newErrorResponse aborts the chain and writes {"error": message} with the status, unless a status was already written |
| Gin.SetCookie | backend/internal/handlers/auth.go:72 | a cookie reaches the client only while nothing was written yet |
| Gin.SetUserId | backend/internal/handlers/middleware.go:35 | c.Set("user_id", id) makes the id readable downstream and leaves status, bodies, cookies and the abort flag as they were |
| Gin.FirstStatusSticks | backend/internal/handlers/teacher.go:67-70 | once a response has a status, a later write keeps it and only adds its body |

## Left out

- Cryptography is not modelled:
  - Argon2 hashing is a deterministic function parameter `hash`.
  - ES256 signing and verification are the abstract codec in `Tokens`, with keys as values.
  - PEM and x509 key loading become an optional key.
  - AES-CFB encryption of the pool passwords is a parameter, and decryption is a total function returning a `Result`, so its failure is modelled.
- The clock (`time.Now`) and the random draws (`math/rand.Intn`, the AES nonce) are parameters. The model does not say how they are distributed.
- `time.Parse` of deadlines and the formatting of dates in responses are an oracle `parseDeadline`. Times are opaque values.
- Foreign keys are not part of the database invariant: `Valid` does not say that a homework's assignment and student, a file's owner, a grade's submission or a link's teacher exist.
- The SQL text, transactions and connections are not modelled. A connection or transaction error is also left out, because the abstract tables cannot fail that way. Only the logical failures are modelled: no rows, a taken email, a refused SET clause. A word already in the pool is not a failure: the insert does nothing.
  - `CountUsedCodes` therefore never fails, and `Generate` has no path for that error.
- `os.ReadFile` with base64 encoding, reading the first 512 bytes of an upload, and `http.DetectContentType` are oracles.
  - `c.SaveUploadedFile` is an optional error.
  - `os.Remove` is removal from the `Disk` set. Its only error is a missing file, so permission errors are left out.
- Multipart parsing is given as a `Result` of the form's parts. Gin's binder errors are given as the text the binder would report, a `bindError` parameter.
- The following are I/O and are not modelled: logging (`log.Println`), gin routing and CORS, the SMTP sender, environment loading, and loading the word lists from disk.
  - The mails are modelled only as the address and the body with the link (`AuthService.ConfirmationMail`, `AuthService.ResetMail`).
  - The word lists reach `Codegen.Generate` as `Result` values.
- The `Content-Type` header that `createAssignment` sets is not modelled, because it changes nothing the model observes.
- Service methods that only forward to the repository are not given members of their own. The handlers call them through `Api.Services`, and the repository members state their effect. These are the remaining `TeacherService` and `StudentService` methods.
- Listings without `ORDER BY` are modelled as sets, so the order of the rows is left out.
  - `GetAssignments`, `GetStudents`, `GetAllHomeworks`, `GetAllHomeworksByStudentId`, `GetAllHomeworksByTeacherId` and `GetTeachers` state membership, not order.
  - A single-row query that several rows match returns any one of them.
- Codegen.Generate: takes the 3000 rounds of draws as one sequence. It is specified for draws that are in range, which `Intn` guarantees for non-empty word lists. An empty word list makes `Intn(0)` panic in the first round; the model returns that panic as a failure `ErrIntnPanic` with the pool unchanged, rather than a crash of the process.
- Saver.SaveFile: states the display-name round trip only for names without '/', because `filepath.Join` cleans paths. `Saver.DirPrefix` models only `Join`'s treatment of a trailing slash, not full path cleaning.
- The handlers keep the display name of stored files as written, the text after the last underscore (see Findings). `Saver.OriginalName` is the corrected computation, and it is not wired into the handlers, so that their contracts describe the code as it is.

## Findings

| source | as written | input that shows it | evidently intended | confidence | as-written member | corrected member |
|---|---|---|---|---|---|---|
| backend/internal/handlers/teacher.go:133-135 | every downloaded file is shown under the text after the last "_" of its stored path "<nanos>_<name>"; the same split is at teacher.go lines 380-383 and 395-398 and student.go lines 187-191 and 202-206 | a file uploaded as "my_report.pdf" is stored as "uploads/assignments/<nanos>_my_report.pdf" and shown as "report.pdf" | the file is shown under the name it was uploaded with, underscores included | high; not executed | Saver.DisplayNameTruncates | Saver.OriginalNameRecovers |
| backend/internal/service/auth_service.go:231-255 | ParseToken decodes any verified token into the session claims; a payload without a role reads as role 0 | a 10-minute confirmation token of a registered teacher, active or not, passes ParseToken as that teacher's session | only a session token opens a session: the corrected parser refuses payloads without a role and otherwise agrees with ParseToken (proved in AuthService.CorrectedParsersSeparateKinds) | medium; not executed | AuthService.ConfirmationTokenIsTeacherSession | AuthService.ParseSessionToken |
| backend/internal/service/auth_service.go:257-272 | ParseResetToken decodes any verified token into the id-only claims and ignores a role | a 12-hour student session token passes ParseResetToken, and resetPassword then replaces the password of the teacher with the same id | only a confirmation or reset token resets a password: the corrected parser refuses payloads with a role and otherwise agrees with ParseResetToken (proved in AuthService.CorrectedParsersSeparateKinds) | medium; not executed | AuthService.SessionTokenIsResetToken | AuthService.ParseResetOnly |
