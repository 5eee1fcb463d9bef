/** The identity middleware (`teacherIdentity`, `studentIdentity`): the Authorization cookie
    must hold "Bearer " and a token; the token must parse; its role must be the one the route
    group is for. Only then is user_id put into the context. */
module Middleware {
  import opened Wrappers
  import opened Text
  import opened Gin
  import Api

  const BearerPrefix: string := "Bearer "
  const TeacherRole: int := 0
  const StudentRole: int := 1

  const ErrInvalidCookie: string := "invalid auth cookie"
  const ErrEmptyToken: string := "token is empty"
  const ErrRole: string := "not enough permissions for your role"

  /** The checks shared by both gates, in their order; `role` is the role the gate admits. */
  function Identity(parseToken: string -> Result<(int, int)>, cookie: Option<string>, role: int): (r: Api.Reply)
    ensures cookie.None? || !HasPrefix(cookie.value, BearerPrefix) ==>
      r == Api.Refuse(401, ErrInvalidCookie)
    ensures cookie.Some? && cookie.value == BearerPrefix ==> r == Api.Refuse(401, ErrEmptyToken)
    ensures r.calls == [] || (cookie.Some? && r.calls == [Api.ParseToken(cookie.value[|BearerPrefix|..])])
    ensures r.ctx.userId.Some? <==>
      && cookie.Some? && HasPrefix(cookie.value, BearerPrefix) && |cookie.value| > |BearerPrefix|
      && parseToken(cookie.value[|BearerPrefix|..]).Ok?
      && parseToken(cookie.value[|BearerPrefix|..]).value.1 == role
    ensures r.ctx.userId.Some? ==>
      r.ctx.userId.value == parseToken(cookie.value[|BearerPrefix|..]).value.0 && r.ctx.status == 0 && !r.ctx.aborted
    ensures r.ctx.userId.None? ==> r.ctx.aborted && r.ctx.status in {401, 403} && |r.ctx.bodies| == 1
    ensures r.ctx.status == 403 <==> r.calls != [] && parseToken(r.calls[0].token).Ok? && parseToken(r.calls[0].token).value.1 != role
  {
    if cookie.None? || !HasPrefix(cookie.value, BearerPrefix) then Api.Refuse(401, ErrInvalidCookie)
    else
      var token := TrimPrefix(cookie.value, BearerPrefix);
      if |token| == 0 then Api.Refuse(401, ErrEmptyToken)
      else
        var calls := [Api.ParseToken(token)];
        var parsed := parseToken(token);
        if parsed.Err? then Api.Failed(calls, 401, parsed.error)
        else if parsed.value.1 != role then Api.Failed(calls, 403, ErrRole)
        else Api.Reply(SetUserId(Start, parsed.value.0), calls)
  }

  /** teacherIdentity admits role 0. */
  function TeacherIdentity(parseToken: string -> Result<(int, int)>, cookie: Option<string>): (r: Api.Reply)
    ensures r.ctx.userId.Some? ==>
      cookie.Some? && |cookie.value| > |BearerPrefix| &&
      parseToken(cookie.value[|BearerPrefix|..]) == Ok((r.ctx.userId.value, TeacherRole))
  {
    Identity(parseToken, cookie, TeacherRole)
  }

  /** studentIdentity admits role 1. */
  function StudentIdentity(parseToken: string -> Result<(int, int)>, cookie: Option<string>): (r: Api.Reply)
    ensures r.ctx.userId.Some? ==>
      cookie.Some? && |cookie.value| > |BearerPrefix| &&
      parseToken(cookie.value[|BearerPrefix|..]) == Ok((r.ctx.userId.value, StudentRole))
  {
    Identity(parseToken, cookie, StudentRole)
  }

  /** The cookie sign-in sets, "Bearer " and the token, reaches ParseToken as exactly that
      token, and whoever the token names with the gate's role is let through. */
  lemma SignInCookieRoundTrip(parseToken: string -> Result<(int, int)>, token: string, role: int)
    requires token != []
    ensures Identity(parseToken, Some(BearerPrefix + token), role).calls == [Api.ParseToken(token)]
    ensures parseToken(token).Ok? && parseToken(token).value.1 == role ==>
      Identity(parseToken, Some(BearerPrefix + token), role).ctx.userId == Some(parseToken(token).value.0)
  {
    var cookie := BearerPrefix + token;
    assert cookie[..|BearerPrefix|] == BearerPrefix;
    assert cookie[|BearerPrefix|..] == token;
  }

  /** A token is never let through both gates: the two roles differ. */
  lemma GatesExclusive(parseToken: string -> Result<(int, int)>, cookie: Option<string>)
    ensures !(TeacherIdentity(parseToken, cookie).ctx.userId.Some? && StudentIdentity(parseToken, cookie).ctx.userId.Some?)
  {
  }
}
