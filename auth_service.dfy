/** The authorization service (`AuthService`): account creation, logins that issue signed
    tokens, token parsing, password changes and the two email links.

    The configuration the service reads from the environment is an `Env`: the password hash
    (a deterministic function of the password, with the fixed salt inside it), the signing key
    pair (None when the key text does not parse), the decryption of the code-word pool's
    passwords, and the email sender. The clock is the `now` parameter, in whole seconds. */
module AuthService {
  import opened Wrappers
  import opened Text
  import opened Models
  import opened Tables
  import opened Tokens
  import AuthPostgres

  datatype Mail = Mail(to: string, subject: string, body: string)

  datatype Env = Env(
    hash: string -> string,
    privateKey: Option<Key>,
    publicKey: Option<Key>,
    decrypt: string -> Result<string>,
    send: Mail -> Outcome)

  const TeacherRole: int := 0
  const StudentRole: int := 1

  /** Session tokens live 12 hours, confirmation and reset tokens 10 minutes. */
  const SessionLifetime: int := 12 * 60 * 60
  const ConfirmationLifetime: int := 10 * 60

  const ErrNoPrincipal: string := "user does nit exist"

  /** The claims of a session token (authClaims): id and role. */
  function SessionClaims(id: int, role: int, now: int): Payload {
    Payload(id, Some(role), now, now + SessionLifetime)
  }

  /** The claims of a confirmation or reset token (confirmationClaims): the id only. */
  function ConfirmationClaims(id: int, now: int): Payload {
    Payload(id, None, now, now + ConfirmationLifetime)
  }

  /** Every token the service issues expires strictly after it was issued, and its text
      carries exactly the claims above. */
  lemma IssuedTokens(id: int, role: int, now: int, key: Key)
    ensures Sign(SessionClaims(id, role, now), Some(key)).Ok?
    ensures Decode(Sign(SessionClaims(id, role, now), Some(key)).value) ==
            Some((key.kid, Payload(id, Some(role), now, now + SessionLifetime)))
    ensures Decode(Sign(ConfirmationClaims(id, now), Some(key)).value) ==
            Some((key.kid, Payload(id, None, now, now + ConfirmationLifetime)))
    ensures SessionClaims(id, role, now).expiresAt > now && ConfirmationClaims(id, now).expiresAt > now
  {
    DecodeEncode(key.kid, SessionClaims(id, role, now));
    DecodeEncode(key.kid, ConfirmationClaims(id, now));
  }

  /** Register a teacher (stored with the password's hash, inactive) and return the token for
      the confirmation email. When the signing key is missing the teacher stays registered. */
  method CreateTeacher(env: Env, db: Db, teacher: Teacher, now: int) returns (r: Result<string>)
    requires db.Valid()
    modifies db`teachers, db`teacherSeq
    ensures db.Valid()
    ensures AuthPostgres.EmailTaken(old(db.teachers), teacher.email) ==>
      r == Err(AuthPostgres.ErrDuplicateEmail) && db.teachers == old(db.teachers)
    ensures !AuthPostgres.EmailTaken(old(db.teachers), teacher.email) ==>
      var id := old(db.teacherSeq);
      && db.teachers == old(db.teachers)[id := Teacher(id, teacher.name, teacher.email, env.hash(teacher.password), false)]
      && r == Sign(ConfirmationClaims(id, now), env.privateKey)
  {
    var id := AuthPostgres.CreateTeacher(db, teacher.(password := env.hash(teacher.password)));
    if id.Err? {
      return Err(id.error);
    }
    r := Sign(ConfirmationClaims(id.value, now), env.privateKey);
  }

  /** Take a code word from the pool, decrypt its password, and register the student with the
      password's hash under `teacherId`. The caller gets the student with the plaintext
      password. A failed decryption leaves the word marked used and registers nobody. */
  method CreateStudent(env: Env, db: Db, teacherId: int, name: string, classNumber: int) returns (r: Result<Student>)
    requires db.Valid()
    modifies db`codeWords, db`students, db`studentSeq, db`teacherStudents
    ensures db.Valid()
    ensures !AuthPostgres.HasFreeWord(old(db.codeWords)) ==>
      r == Err(ErrNoRows) && db.students == old(db.students) && db.codeWords == old(db.codeWords)
    ensures r.Err? ==> db.students == old(db.students) && db.teacherStudents == old(db.teacherStudents)
    ensures r.Err? && AuthPostgres.HasFreeWord(old(db.codeWords)) ==>
      exists w | w in old(db.codeWords) && !old(db.codeWords)[w].isUsed ::
        && db.codeWords == old(db.codeWords)[w := old(db.codeWords)[w].(isUsed := true)]
        && env.decrypt(old(db.codeWords)[w].password) == Err(r.error)
    ensures r.Ok? ==>
      var s := r.value;
      && s.id == old(db.studentSeq) && s.id !in old(db.students)
      && s.code in old(db.codeWords) && !old(db.codeWords)[s.code].isUsed
      && db.codeWords == old(db.codeWords)[s.code := old(db.codeWords)[s.code].(isUsed := true)]
      && env.decrypt(old(db.codeWords)[s.code].password) == Ok(s.password)
      && db.students == old(db.students)[s.id := Student(s.id, name, s.code, env.hash(s.password), classNumber)]
      && db.teacherStudents == old(db.teacherStudents) + [Link(teacherId, s.id)]
      && s == Student(s.id, name, s.code, s.password, classNumber)
    ensures old(db.CodesIssued()) ==> db.CodesIssued()
    ensures old(db.LinksUnique()) ==> db.LinksUnique()
  {
    var word := AuthPostgres.GetCodeWord(db);
    if word.Err? {
      return Err(word.error);
    }
    var (code, encrypted) := word.value;
    var password := env.decrypt(encrypted);
    if password.Err? {
      return Err(password.error);
    }
    var student := Student(0, name, code, env.hash(password.value), classNumber);
    var id := AuthPostgres.CreateStudent(db, teacherId, student);
    r := Ok(Student(id.value, name, code, password.value, classNumber));
  }

  /** Change a student's password: the store compares the hash of the old password with the
      stored one; only hashes reach the store. */
  method UpdateStudentPassword(env: Env, db: Db, studentId: int, oldPassword: string, newPassword: string)
    returns (r: Outcome)
    requires db.Valid()
    modifies db`students
    ensures db.Valid()
    ensures studentId !in old(db.students) ==> r == Fail(ErrNoRows)
    ensures studentId in old(db.students) && old(db.students)[studentId].password != env.hash(oldPassword) ==>
      r == Fail(AuthPostgres.ErrPasswordsMismatch)
    ensures r.Fail? ==> db.students == old(db.students)
    ensures r.Pass? ==>
      && studentId in old(db.students) && old(db.students)[studentId].password == env.hash(oldPassword)
      && db.students == old(db.students)[studentId := old(db.students)[studentId].(password := env.hash(newPassword))]
  {
    r := AuthPostgres.UpdateStudentPassword(db, studentId, env.hash(oldPassword), env.hash(newPassword));
  }

  /** Set a teacher's password to the hash of the new one, with no other check. */
  method UpdateTeacherPassword(env: Env, db: Db, teacherId: int, newPassword: string) returns (r: Outcome)
    requires db.Valid()
    modifies db`teachers
    ensures db.Valid()
    ensures r == Pass
    ensures db.teachers == if teacherId in old(db.teachers)
                           then old(db.teachers)[teacherId := old(db.teachers)[teacherId].(password := env.hash(newPassword))]
                           else old(db.teachers)
  {
    r := AuthPostgres.UpdateTeacherPassword(db, teacherId, env.hash(newPassword));
  }

  const ConfirmLinkPrefix: string := "http://localhost:3000/auth/confirm?token="
  const ResetLinkPrefix: string := "http://localhost:3000/auth/teacher/update-password?token="

  function ConfirmationMail(email: string, token: string): (m: Mail)
    ensures m.to == email && m.subject == "Confirm your email"
    ensures TrimPrefix(m.body, "Click the link to confirm your email: " + ConfirmLinkPrefix) == token
  {
    Mail(email, "Confirm your email", "Click the link to confirm your email: " + ConfirmLinkPrefix + token)
  }

  function ResetMail(email: string, token: string): (m: Mail)
    ensures m.to == email && m.subject == "Reset your password"
    ensures TrimPrefix(m.body, "Click the link to reset your password: " + ResetLinkPrefix) == token
  {
    Mail(email, "Reset your password", "Click the link to reset your password: " + ResetLinkPrefix + token)
  }

  /** Send the confirmation mail; the sender's error is returned as it is. The mail is the one
      ConfirmationMail describes: to `email`, with the token verbatim after `?token=`. */
  function SendConfirmationEmail(env: Env, email: string, token: string): (r: Outcome)
    ensures r == env.send(ConfirmationMail(email, token))
  {
    env.send(ConfirmationMail(email, token))
  }

  /** Send the reset mail; the sender's error is returned as it is. */
  function SendResetEmail(env: Env, email: string, token: string): (r: Outcome)
    ensures r == env.send(ResetMail(email, token))
  {
    env.send(ResetMail(email, token))
  }

  /** The id of a valid confirmation token. */
  function ConfirmEmail(env: Env, token: string, now: int): (r: Result<int>)
    ensures r.Ok? <==> Verify(token, env.publicKey, now).Ok?
    ensures r.Ok? ==> r.value == Verify(token, env.publicKey, now).value.id
    ensures r.Err? ==> r.error == Verify(token, env.publicKey, now).error
  {
    match Verify(token, env.publicKey, now)
    case Err(e) => Err(e)
    case Ok(p) => Ok(p.id)
  }

  /** The 10-minute token of the password-reset email. */
  function GenerateResetToken(env: Env, id: int, now: int): (r: Result<string>)
    ensures r.Err? <==> env.privateKey.None?
    ensures r.Ok? ==> Decode(r.value) == Some((env.privateKey.value.kid, ConfirmationClaims(id, now)))
  {
    SignClaims(env, ConfirmationClaims(id, now))
  }

  method ActivateUser(db: Db, userId: int) returns (r: Outcome)
    requires db.Valid()
    modifies db`teachers
    ensures db.Valid()
    ensures r == Pass
    ensures db.teachers.Keys == old(db.teachers).Keys
    ensures userId in db.teachers ==> db.teachers[userId] == old(db.teachers)[userId].(isActive := true)
    ensures forall k | k in db.teachers && k != userId :: db.teachers[k] == old(db.teachers)[k]
  {
    r := AuthPostgres.ActivateUser(db, userId);
  }

  method GetTeacherByEmail(db: Db, email: string) returns (r: Result<Teacher>)
    ensures r.Ok? <==> exists k | k in db.teachers :: db.teachers[k].email == email && db.teachers[k].isActive
    ensures r.Ok? ==> r.value in db.teachers.Values && r.value.email == email && r.value.isActive
    ensures r.Err? ==> r.error == ErrNoRows
  {
    r := AuthPostgres.GetTeacherByEmail(db, email);
  }

  /** Teacher login: hash the password, look the active teacher up, and sign a 12-hour session
      token with role 0. A failed lookup is returned as it is. */
  method GenerateTeacherToken(env: Env, db: Db, email: string, password: string, now: int) returns (r: Result<string>)
    ensures !(exists k | k in db.teachers :: AuthPostgres.TeacherLogin(db.teachers[k], email, env.hash(password))) ==>
      r == Err(AuthPostgres.ErrWrongEmail)
    ensures (exists k | k in db.teachers :: AuthPostgres.TeacherLogin(db.teachers[k], email, env.hash(password))) ==>
      (r.Ok? <==> env.privateKey.Some?) && (r.Err? ==> r.error == ErrPrivateKey)
    ensures r.Ok? ==>
      && env.privateKey.Some?
      && exists t | t in db.teachers.Values :: AuthPostgres.TeacherLogin(t, email, env.hash(password)) &&
           Decode(r.value) == Some((env.privateKey.value.kid, SessionClaims(t.id, TeacherRole, now)))
  {
    var teacher := AuthPostgres.GetTeacher(db, email, env.hash(password));
    if teacher.Err? {
      return Err(teacher.error);
    }
    r := SignClaims(env, SessionClaims(teacher.value.id, TeacherRole, now));
  }

  /** Student login: the same with the code word and role 1. */
  method GenerateStudentToken(env: Env, db: Db, codeWord: string, password: string, now: int) returns (r: Result<string>)
    ensures !(exists k | k in db.students :: db.students[k].code == codeWord && db.students[k].password == env.hash(password)) ==>
      r == Err(AuthPostgres.ErrWrongCode)
    ensures (exists k | k in db.students :: db.students[k].code == codeWord && db.students[k].password == env.hash(password)) ==>
      (r.Ok? <==> env.privateKey.Some?) && (r.Err? ==> r.error == ErrPrivateKey)
    ensures r.Ok? ==>
      && env.privateKey.Some?
      && exists s | s in db.students.Values :: s.code == codeWord && s.password == env.hash(password) &&
           Decode(r.value) == Some((env.privateKey.value.kid, SessionClaims(s.id, StudentRole, now)))
  {
    var student := AuthPostgres.GetStudent(db, codeWord, env.hash(password));
    if student.Err? {
      return Err(student.error);
    }
    r := SignClaims(env, SessionClaims(student.value.id, StudentRole, now));
  }

  /** Sign claims with the configured key; the signed text decodes back to them. */
  function SignClaims(env: Env, p: Payload): (r: Result<string>)
    ensures r.Err? <==> env.privateKey.None?
    ensures r.Err? ==> r.error == ErrPrivateKey
    ensures r.Ok? ==> Decode(r.value) == Some((env.privateKey.value.kid, p))
  {
    match env.privateKey
    case None => Sign(p, None)
    case Some(k) => DecodeEncode(k.kid, p); Sign(p, Some(k))
  }

  /** Parse a session token: verify it, read the role (a payload without one reads as role 0,
      the zero value of the decoded field), and check that the principal still exists: role 1
      is looked up among the students, every other role among the teachers. */
  function ParseToken(env: Env, db: Db, token: string, now: int): (r: Result<(int, int)>)
    reads db
    ensures r.Ok? ==>
      var p := Verify(token, env.publicKey, now);
      && p.Ok? && r.value == (p.value.id, p.value.role.GetOr(0))
      && (if r.value.1 == StudentRole then r.value.0 in db.students else r.value.0 in db.teachers)
    ensures Verify(token, env.publicKey, now).Err? ==> r == Err(Verify(token, env.publicKey, now).error)
    ensures Verify(token, env.publicKey, now).Ok? && r.Err? ==> r.error == ErrNoPrincipal
  {
    match Verify(token, env.publicKey, now)
    case Err(e) => Err(e)
    case Ok(p) =>
      var role := p.role.GetOr(0);
      var found := if role == StudentRole then AuthPostgres.GetStudentById(db, p.id) else AuthPostgres.GetTeacherById(db, p.id);
      if found.Fail? then Err(ErrNoPrincipal) else Ok((p.id, role))
  }

  /** Parse a reset token: the id of any valid token. */
  function ParseResetToken(env: Env, token: string, now: int): (r: Result<int>)
    ensures r.Ok? <==> Verify(token, env.publicKey, now).Ok?
    ensures r.Ok? ==> r.value == Verify(token, env.publicKey, now).value.id
  {
    match Verify(token, env.publicKey, now)
    case Err(e) => Err(e)
    case Ok(p) => Ok(p.id)
  }

  /** A session token parses back to its id and role until it expires, while its principal exists. */
  lemma SessionRoundTrip(env: Env, db: Db, id: int, role: int, issuedAt: int, now: int)
    requires env.privateKey.Some? && env.publicKey == env.privateKey
    requires if role == StudentRole then id in db.students else id in db.teachers
    ensures var token := Sign(SessionClaims(id, role, issuedAt), env.privateKey).value;
      ParseToken(env, db, token, now) == if now < issuedAt + SessionLifetime then Ok((id, role)) else Err(ErrExpired)
  {
    VerifySigned(SessionClaims(id, role, issuedAt), env.privateKey.value, now);
  }

  /** A session token whose principal was deleted is refused, however fresh. */
  lemma SessionOfDeletedPrincipal(env: Env, db: Db, id: int, role: int, issuedAt: int, now: int)
    requires env.privateKey.Some? && env.publicKey == env.privateKey
    requires now < issuedAt + SessionLifetime
    requires if role == StudentRole then id !in db.students else id !in db.teachers
    ensures ParseToken(env, db, Sign(SessionClaims(id, role, issuedAt), env.privateKey).value, now) == Err(ErrNoPrincipal)
  {
    VerifySigned(SessionClaims(id, role, issuedAt), env.privateKey.value, now);
  }

  /** A confirmation token gives back its id to ConfirmEmail and ParseResetToken for 10 minutes. */
  lemma ConfirmationRoundTrip(env: Env, id: int, issuedAt: int, now: int)
    requires env.privateKey.Some? && env.publicKey == env.privateKey
    ensures var token := Sign(ConfirmationClaims(id, issuedAt), env.privateKey).value;
      && ConfirmEmail(env, token, now) == (if now < issuedAt + ConfirmationLifetime then Ok(id) else Err(ErrExpired))
      && ParseResetToken(env, token, now) == (if now < issuedAt + ConfirmationLifetime then Ok(id) else Err(ErrExpired))
  {
    VerifySigned(ConfirmationClaims(id, issuedAt), env.privateKey.value, now);
  }

  // ---------------------------------------------------------------------------------------
  // Tokens of one kind are accepted where the other kind is expected: both kinds are signed
  // with the same key and decoded by reading only the fields the target claims declare.
  // ---------------------------------------------------------------------------------------

  /** As written: a confirmation token (no role) passes ParseToken as a teacher session, for any
      registered teacher, whether or not the account was activated. */
  lemma ConfirmationTokenIsTeacherSession(env: Env, db: Db, id: int, issuedAt: int, now: int)
    requires env.privateKey.Some? && env.publicKey == env.privateKey
    requires id in db.teachers && now < issuedAt + ConfirmationLifetime
    ensures ParseToken(env, db, Sign(ConfirmationClaims(id, issuedAt), env.privateKey).value, now) == Ok((id, TeacherRole))
  {
    VerifySigned(ConfirmationClaims(id, issuedAt), env.privateKey.value, now);
  }

  /** As written: a student's session token passes ParseResetToken, and so names the teacher
      with the same numeric id as the account whose password is reset. */
  lemma SessionTokenIsResetToken(env: Env, id: int, issuedAt: int, now: int)
    requires env.privateKey.Some? && env.publicKey == env.privateKey
    requires now < issuedAt + SessionLifetime
    ensures ParseResetToken(env, Sign(SessionClaims(id, StudentRole, issuedAt), env.privateKey).value, now) == Ok(id)
  {
    VerifySigned(SessionClaims(id, StudentRole, issuedAt), env.privateKey.value, now);
  }

  const ErrClaimsType: string := "wrong type of token claims"

  /** Corrected ParseToken: a payload without a role is not a session. */
  function ParseSessionToken(env: Env, db: Db, token: string, now: int): (r: Result<(int, int)>)
    reads db
    ensures r.Ok? ==> ParseToken(env, db, token, now) == r
    ensures r.Ok? ==> Verify(token, env.publicKey, now).value.role.Some?
  {
    match Verify(token, env.publicKey, now)
    case Err(e) => Err(e)
    case Ok(p) => if p.role.None? then Err(ErrClaimsType) else ParseToken(env, db, token, now)
  }

  /** Corrected ParseResetToken: a payload with a role is a session, not a reset token. */
  function ParseResetOnly(env: Env, token: string, now: int): (r: Result<int>)
    ensures r.Ok? ==> ParseResetToken(env, token, now) == r
    ensures r.Ok? ==> Verify(token, env.publicKey, now).value.role.None?
  {
    match Verify(token, env.publicKey, now)
    case Err(e) => Err(e)
    case Ok(p) => if p.role.Some? then Err(ErrClaimsType) else Ok(p.id)
  }

  /** The corrected parsers keep every legitimate use and refuse the crossed ones. */
  lemma CorrectedParsersSeparateKinds(env: Env, db: Db, id: int, role: int, issuedAt: int, now: int)
    requires env.privateKey.Some? && env.publicKey == env.privateKey
    requires now < issuedAt + ConfirmationLifetime
    ensures var session := Sign(SessionClaims(id, role, issuedAt), env.privateKey).value;
            var confirmation := Sign(ConfirmationClaims(id, issuedAt), env.privateKey).value;
      && ParseSessionToken(env, db, session, now) == ParseToken(env, db, session, now)
      && ParseSessionToken(env, db, confirmation, now) == Err(ErrClaimsType)
      && ParseResetOnly(env, confirmation, now) == Ok(id)
      && ParseResetOnly(env, session, now) == Err(ErrClaimsType)
  {
    VerifySigned(SessionClaims(id, role, issuedAt), env.privateKey.value, now);
    VerifySigned(ConfirmationClaims(id, issuedAt), env.privateKey.value, now);
  }
}
