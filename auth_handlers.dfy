/** The handlers of the /auth group: sign-up, the two sign-ins, sign-out, email confirmation
    and the two steps of a teacher's password reset. Each is a function from the request and the
    services to the response it writes and the service calls it makes, in order. */
module AuthHandlers {
  import opened Wrappers
  import opened Models
  import opened Gin
  import opened Validate
  import opened Text
  import Api
  import AuthPostgres
  import Middleware

  const ErrBody: string := "invalid input body"
  const ErrValues: string := "invalid values"
  const ErrToken: string := "invalid token"
  const ErrActivate: string := "failed to activate user"
  const ErrResetToken: string := "invalid or expired token"

  const MsgRegistered: string := "Registration successful. Please confirm your email."
  const MsgSignedOut: string := "sign out successfully"
  const MsgConfirmed: string := "email confirmed successfully"
  const MsgResetSent: string := "password reset link sent"
  const MsgPasswordUpdated: string := "password successfully updated"

  /** A day, the lifetime of the session cookie in seconds. */
  const CookieAge: int := 60 * 60 * 24

  /** The Authorization cookie sign-in sets: "Bearer " and the token, for a day, HttpOnly. */
  function SessionCookie(token: string): (k: Cookie)
    ensures k.name == "Authorization" && k.value == Middleware.BearerPrefix + token && k.maxAge == 86400 && k.httpOnly
  {
    Cookie("Authorization", Middleware.BearerPrefix + token, CookieAge, "/", "localhost", false, true)
  }

  /** The cookie sign-out sets: the same cookie, empty and already expired. */
  const ExpiredCookie: Cookie := Cookie("Authorization", "", -1, "/", "localhost", false, true)

  /** The body of the two sign-in forms: the email (teacher) or the code word (student),
      and the password; both fields are `binding:"required"`. */
  datatype SignInForm = SignInForm(login: string, password: string)

  /** c.BindJSON into models.Teacher: the JSON must parse (None when it does not) and name,
      email and password are `binding:"required"`, so none may be empty. */
  predicate TeacherBinds(body: Option<Teacher>) {
    body.Some? && body.value.name != "" && body.value.email != "" && body.value.password != ""
  }

  /** h.validate.Struct(teacher): valid_name, email and strong_password. */
  predicate TeacherValid(isEmail: string -> bool, t: Teacher) {
    ValidName(t.name) && isEmail(t.email) && StrongPassword(t.password)
  }

  predicate FormBinds(body: Option<SignInForm>) {
    body.Some? && body.value.login != "" && body.value.password != ""
  }

  /** signUpTeacher. The id is `json:"-"`, so the bound teacher always has id 0. */
  function SignUpTeacher(svc: Api.Services, body: Option<Teacher>): (r: Api.Reply)
    ensures r.calls == [] <==> !TeacherBinds(body) || !TeacherValid(svc.isEmail, body.value)
    ensures !TeacherBinds(body) ==> r == Api.Refuse(400, ErrBody)
    ensures TeacherBinds(body) && !TeacherValid(svc.isEmail, body.value) ==> r == Api.Refuse(400, ErrValues)
    ensures r.calls != [] ==> r.calls[0] == Api.CreateTeacher(body.value.(id := 0))
    ensures r.calls != [] && svc.auth.createTeacher(body.value.(id := 0)).Err? ==>
      |r.calls| == 1 && r.ctx.aborted &&
      Status(r.ctx) == (if svc.auth.createTeacher(body.value.(id := 0)).error == AuthPostgres.ErrDuplicateEmail then 400 else 500)
    ensures r.calls != [] && svc.auth.createTeacher(body.value.(id := 0)).Ok? ==>
      r.calls == [Api.CreateTeacher(body.value.(id := 0)),
                  Api.SendConfirmationEmail(body.value.email, svc.auth.createTeacher(body.value.(id := 0)).value)]
    ensures Status(r.ctx) == 200 <==>
      && r.calls != [] && svc.auth.createTeacher(body.value.(id := 0)).Ok?
      && svc.auth.sendConfirmationEmail(body.value.email, svc.auth.createTeacher(body.value.(id := 0)).value).Pass?
    ensures Status(r.ctx) == 200 ==> r.ctx.bodies == [MessageBody(MsgRegistered)]
  {
    if !TeacherBinds(body) then Api.Refuse(400, ErrBody)
    else if !TeacherValid(svc.isEmail, body.value) then Api.Refuse(400, ErrValues)
    else
      var teacher := body.value.(id := 0);
      var created := svc.auth.createTeacher(teacher);
      var calls := [Api.CreateTeacher(teacher)];
      if created.Err? then
        if created.error == AuthPostgres.ErrDuplicateEmail then Api.Failed(calls, 400, created.error)
        else Api.Failed(calls, 500, created.error)
      else
        var calls := calls + [Api.SendConfirmationEmail(teacher.email, created.value)];
        var sent := svc.auth.sendConfirmationEmail(teacher.email, created.value);
        if sent.Fail? then Api.Failed(calls, 500, sent.error)
        else Api.Answer(calls, MessageBody(MsgRegistered))
  }

  /** What both sign-ins do once the form is bound: ask for a token, map the login error whose
      text is `wrong` to 401 and any other to 500, and on success only set the cookie (no body,
      so the client sees 200). */
  function SignIn(call: Api.Call, issued: Result<string>, wrong: string): (r: Api.Reply)
    requires wrong != ""
    ensures r.calls == [call]
    ensures issued.Err? ==> r.ctx.aborted && r.ctx.bodies == [ErrorBody(issued.error)] && r.ctx.cookies == []
    ensures issued.Err? ==> (Status(r.ctx) == 401 <==> issued.error == wrong)
    ensures issued.Err? ==> (Status(r.ctx) == 500 <==> issued.error != wrong)
    ensures issued.Ok? ==>
      r.ctx.cookies == [SessionCookie(issued.value)] && r.ctx.bodies == [] && Status(r.ctx) == 200 && !r.ctx.aborted
  {
    if issued.Err? then
      if issued.error == wrong then Api.Failed([call], 401, issued.error)
      else Api.Failed([call], 500, issued.error)
    else Api.Reply(SetCookie(Start, SessionCookie(issued.value)), [call])
  }

  /** signInTeacher: GenerateTeacherToken(email, password). */
  function SignInTeacher(svc: Api.Services, body: Option<SignInForm>): (r: Api.Reply)
    ensures !FormBinds(body) ==> r == Api.Refuse(400, ErrBody)
    ensures FormBinds(body) ==>
      var issued := svc.auth.generateTeacherToken(body.value.login, body.value.password);
      && r.calls == [Api.GenerateTeacherToken(body.value.login, body.value.password)]
      && (issued.Err? ==> (Status(r.ctx) == 401 <==> issued.error == AuthPostgres.ErrWrongEmail))
      && (issued.Err? ==> (Status(r.ctx) == 500 <==> issued.error != AuthPostgres.ErrWrongEmail))
      && (issued.Ok? ==> r.ctx.cookies == [SessionCookie(issued.value)] && Status(r.ctx) == 200)
  {
    if !FormBinds(body) then Api.Refuse(400, ErrBody)
    else
      var form := body.value;
      SignIn(Api.GenerateTeacherToken(form.login, form.password),
             svc.auth.generateTeacherToken(form.login, form.password), AuthPostgres.ErrWrongEmail)
  }

  /** signInStudent: GenerateStudentToken(code word, password). */
  function SignInStudent(svc: Api.Services, body: Option<SignInForm>): (r: Api.Reply)
    ensures !FormBinds(body) ==> r == Api.Refuse(400, ErrBody)
    ensures FormBinds(body) ==>
      var issued := svc.auth.generateStudentToken(body.value.login, body.value.password);
      && r.calls == [Api.GenerateStudentToken(body.value.login, body.value.password)]
      && (issued.Err? ==> (Status(r.ctx) == 401 <==> issued.error == AuthPostgres.ErrWrongCode))
      && (issued.Err? ==> (Status(r.ctx) == 500 <==> issued.error != AuthPostgres.ErrWrongCode))
      && (issued.Ok? ==> r.ctx.cookies == [SessionCookie(issued.value)] && Status(r.ctx) == 200)
  {
    if !FormBinds(body) then Api.Refuse(400, ErrBody)
    else
      var form := body.value;
      SignIn(Api.GenerateStudentToken(form.login, form.password),
             svc.auth.generateStudentToken(form.login, form.password), AuthPostgres.ErrWrongCode)
  }

  /** The cookie a teacher's sign-in sets brings the same token back through the teacher gate,
      and the teacher the token names is let through. */
  lemma SignInThenGate(svc: Api.Services, form: SignInForm)
    requires FormBinds(Some(form))
    requires svc.auth.generateTeacherToken(form.login, form.password).Ok?
    ensures
      var token := svc.auth.generateTeacherToken(form.login, form.password).value;
      var cookie := SignInTeacher(svc, Some(form)).ctx.cookies[0].value;
      && cookie == Middleware.BearerPrefix + token
      && (token != [] ==> Middleware.TeacherIdentity(svc.auth.parseToken, Some(cookie)).calls == [Api.ParseToken(token)])
      && (token != [] && svc.auth.parseToken(token).Ok? && svc.auth.parseToken(token).value.1 == Middleware.TeacherRole ==>
            Middleware.TeacherIdentity(svc.auth.parseToken, Some(cookie)).ctx.userId == Some(svc.auth.parseToken(token).value.0))
  {
    var token := svc.auth.generateTeacherToken(form.login, form.password).value;
    if token != [] {
      Middleware.SignInCookieRoundTrip(svc.auth.parseToken, token, Middleware.TeacherRole);
    }
  }

  /** signOut: overwrite the cookie with an empty, expired one, then answer 200. */
  function SignOut(): (r: Api.Reply)
    ensures r.calls == [] && Status(r.ctx) == 200 && r.ctx.bodies == [MessageBody(MsgSignedOut)]
    ensures |r.ctx.cookies| == 1 && r.ctx.cookies[0].name == "Authorization"
    ensures r.ctx.cookies[0].value == "" && r.ctx.cookies[0].maxAge < 0
  {
    Api.Reply(JSON(SetCookie(Start, ExpiredCookie), 200, MessageBody(MsgSignedOut)), [])
  }

  /** confirmEmail: `token` is the query parameter ("" when absent). A failed activation is
      answered with c.JSON, so the chain is not aborted. */
  function ConfirmEmail(svc: Api.Services, token: string): (r: Api.Reply)
    ensures token == "" ==> r == Api.Refuse(400, ErrToken)
    ensures token != "" ==> |r.calls| >= 1 && r.calls[0] == Api.ConfirmEmail(token)
    ensures token != "" && svc.auth.confirmEmail(token).Err? ==>
      r == Api.Failed([Api.ConfirmEmail(token)], 400, svc.auth.confirmEmail(token).error)
    ensures token != "" && svc.auth.confirmEmail(token).Ok? ==>
      && r.calls == [Api.ConfirmEmail(token), Api.ActivateUser(svc.auth.confirmEmail(token).value)]
      && (svc.auth.activateUser(svc.auth.confirmEmail(token).value).Fail? ==>
            Status(r.ctx) == 500 && r.ctx.bodies == [ErrorBody(ErrActivate)] && !r.ctx.aborted)
    ensures Status(r.ctx) == 200 <==>
      token != "" && svc.auth.confirmEmail(token).Ok? && svc.auth.activateUser(svc.auth.confirmEmail(token).value).Pass?
  {
    if token == "" then Api.Refuse(400, ErrToken)
    else
      var confirmed := svc.auth.confirmEmail(token);
      if confirmed.Err? then Api.Failed([Api.ConfirmEmail(token)], 400, confirmed.error)
      else
        var calls := [Api.ConfirmEmail(token), Api.ActivateUser(confirmed.value)];
        if svc.auth.activateUser(confirmed.value).Fail? then Api.Reply(JSON(Start, 500, ErrorBody(ErrActivate)), calls)
        else Api.Answer(calls, MessageBody(MsgConfirmed))
  }

  /** requestPasswordReset. The body binds with `binding:"required,email"` through
      ShouldBindJSON; `bindError` is the text the binder reports when it does not. */
  function RequestPasswordReset(svc: Api.Services, email: Option<string>, bindError: string): (r: Api.Reply)
    ensures email.None? || email.value == "" || !svc.isEmail(email.value) ==> r == Api.Refuse(400, bindError)
    ensures r.calls != [] ==> r.calls[0] == Api.GetTeacherByEmail(email.value)
    ensures r.calls != [] && svc.auth.getTeacherByEmail(email.value).Err? ==>
      r == Api.Failed([Api.GetTeacherByEmail(email.value)], 404, svc.auth.getTeacherByEmail(email.value).error)
    ensures r.calls != [] && svc.auth.getTeacherByEmail(email.value).Ok? ==>
      var id := svc.auth.getTeacherByEmail(email.value).value.id;
      && |r.calls| >= 2 && r.calls[..2] == [Api.GetTeacherByEmail(email.value), Api.GenerateResetToken(id)]
      && (svc.auth.generateResetToken(id).Ok? ==>
            r.calls == [Api.GetTeacherByEmail(email.value), Api.GenerateResetToken(id),
                        Api.SendResetEmail(email.value, svc.auth.generateResetToken(id).value)])
    ensures r.calls != [] && svc.auth.getTeacherByEmail(email.value).Ok? ==>
      var id := svc.auth.getTeacherByEmail(email.value).value.id;
      var token := svc.auth.generateResetToken(id);
      && (token.Err? ==> r == Api.Failed(r.calls, 500, token.error))
      && (token.Ok? && svc.auth.sendResetEmail(email.value, token.value).Fail? ==>
            r == Api.Failed(r.calls, 500, svc.auth.sendResetEmail(email.value, token.value).error))
    ensures Status(r.ctx) == 200 <==>
      && r.calls != []
      && svc.auth.getTeacherByEmail(email.value).Ok?
      && svc.auth.generateResetToken(svc.auth.getTeacherByEmail(email.value).value.id).Ok?
      && svc.auth.sendResetEmail(email.value,
           svc.auth.generateResetToken(svc.auth.getTeacherByEmail(email.value).value.id).value).Pass?
    ensures Status(r.ctx) == 200 ==> r.ctx.bodies == [MessageBody(MsgResetSent)] && |r.calls| == 3
  {
    if email.None? || email.value == "" || !svc.isEmail(email.value) then Api.Refuse(400, bindError)
    else
      var found := svc.auth.getTeacherByEmail(email.value);
      var calls := [Api.GetTeacherByEmail(email.value)];
      if found.Err? then Api.Failed(calls, 404, found.error)
      else
        var calls := calls + [Api.GenerateResetToken(found.value.id)];
        var token := svc.auth.generateResetToken(found.value.id);
        if token.Err? then Api.Failed(calls, 500, token.error)
        else
          var calls := calls + [Api.SendResetEmail(email.value, token.value)];
          var sent := svc.auth.sendResetEmail(email.value, token.value);
          if sent.Fail? then Api.Failed(calls, 500, sent.error)
          else Api.Answer(calls, MessageBody(MsgResetSent))
  }

  /** resetPassword: `token` is the query parameter; the body is {"password": ...} (None when
      it is not JSON), checked by `required,strong_password` before the token is looked at.
      A token that does not parse is answered with c.JSON, without aborting. */
  function ResetPassword(svc: Api.Services, token: string, password: Option<string>, bindError: string): (r: Api.Reply)
    ensures password.None? ==> r == Api.Refuse(400, bindError)
    ensures password.Some? && !StrongPassword(password.value) ==> r == Api.Refuse(400, ErrValues)
    ensures password.Some? && StrongPassword(password.value) ==> |r.calls| >= 1 && r.calls[0] == Api.ParseResetToken(token)
    ensures password.Some? && StrongPassword(password.value) && svc.auth.parseResetToken(token).Err? ==>
      r.calls == [Api.ParseResetToken(token)] && Status(r.ctx) == 500 &&
      r.ctx.bodies == [ErrorBody(ErrResetToken)] && !r.ctx.aborted
    ensures password.Some? && StrongPassword(password.value) && svc.auth.parseResetToken(token).Ok? ==>
      r.calls == [Api.ParseResetToken(token), Api.UpdateTeacherPassword(svc.auth.parseResetToken(token).value, password.value)]
    ensures Status(r.ctx) == 200 <==>
      && password.Some? && StrongPassword(password.value) && svc.auth.parseResetToken(token).Ok?
      && svc.auth.updateTeacherPassword(svc.auth.parseResetToken(token).value, password.value).Pass?
  {
    if password.None? then Api.Refuse(400, bindError)
    else if !StrongPassword(password.value) then Api.Refuse(400, ErrValues)
    else
      var parsed := svc.auth.parseResetToken(token);
      if parsed.Err? then Api.Reply(JSON(Start, 500, ErrorBody(ErrResetToken)), [Api.ParseResetToken(token)])
      else
        var calls := [Api.ParseResetToken(token), Api.UpdateTeacherPassword(parsed.value, password.value)];
        var updated := svc.auth.updateTeacherPassword(parsed.value, password.value);
        if updated.Fail? then Api.Failed(calls, 500, updated.error)
        else Api.Answer(calls, MessageBody(MsgPasswordUpdated))
  }

  /** The weak passwords the handler tests use are turned away before any service call. */
  lemma WeakPasswordsRefused(svc: Api.Services, token: string, bindError: string)
    ensures ResetPassword(svc, token, Some("123"), bindError) == Api.Refuse(400, ErrValues)
    ensures ResetPassword(svc, token, Some("1234"), bindError).calls == []
  {
    StrongPasswordExamples();
  }

  /** Every sign-up that reaches the services was valid: its name is a valid name and its
      password a strong one. */
  lemma SignUpOnlyValid(svc: Api.Services, body: Option<Teacher>)
    requires SignUpTeacher(svc, body).calls != []
    ensures body.Some? && ValidName(body.value.name) && StrongPassword(body.value.password)
    ensures Utf8Len(body.value.password) >= 8 && body.value.name[0] != ' '
  {
    ValidNameShape(body.value.name);
  }
}
