/** What the handlers do to a gin request context, as a value: the status written first, the
    JSON bodies written in order, the cookies set before the response started, whether the
    chain was aborted, and the user id the middleware put into the context. */
module Gin {
  import opened Wrappers
  import opened Models

  /** The JSON values the handlers write (a Go map or struct becomes an object with the
      fields in its json tag names). */
  datatype Json =
    | JInt(i: int)
    | JBool(b: bool)
    | JStr(s: string)
    | JTime(t: Time)
    | JList(items: seq<Json>)
    | JObject(fields: map<string, Json>)

  datatype Cookie = Cookie(name: string, value: string, maxAge: int, path: string, domain: string, secure: bool, httpOnly: bool)

  /** `status` is 0 until a status is written. */
  datatype Ctx = Ctx(status: int, bodies: seq<Json>, cookies: seq<Cookie>, aborted: bool, userId: Option<int>)

  /** A context no handler has touched yet. */
  const Start: Ctx := Ctx(0, [], [], false, None)

  /** The status a client sees: gin answers 200 when nothing was written. */
  function Status(c: Ctx): (code: int)
    ensures c.status != 0 ==> code == c.status
  {
    if c.status == 0 then 200 else c.status
  }

  /** c.JSON: the first status written sticks (a later one only draws gin's warning), and the
      body is written after whatever was written before. */
  function JSON(c: Ctx, code: int, body: Json): (d: Ctx)
    requires code != 0
    ensures d.status == (if c.status == 0 then code else c.status)
    ensures d.bodies == c.bodies + [body]
    ensures d.cookies == c.cookies && d.aborted == c.aborted && d.userId == c.userId
  {
    c.(status := if c.status == 0 then code else c.status, bodies := c.bodies + [body])
  }

  /** The body {"error": message}. */
  function ErrorBody(message: string): Json {
    JObject(map["error" := JStr(message)])
  }

  function MessageBody(message: string): Json {
    JObject(map["message" := JStr(message)])
  }

  /** newErrorResponse: abort the chain and write the status with {"error": message}. */
  function ErrorResponse(c: Ctx, code: int, message: string): (d: Ctx)
    requires code != 0
    ensures d.aborted
    ensures d.status == (if c.status == 0 then code else c.status)
    ensures d.bodies == c.bodies + [ErrorBody(message)]
    ensures d.cookies == c.cookies && d.userId == c.userId
  {
    JSON(c.(aborted := true), code, ErrorBody(message))
  }

  /** c.SetCookie adds a Set-Cookie header, which only reaches the client while the response
      has not started. */
  function SetCookie(c: Ctx, cookie: Cookie): (d: Ctx)
    ensures c.status == 0 ==> d.cookies == c.cookies + [cookie]
    ensures c.status != 0 ==> d.cookies == c.cookies
    ensures d.status == c.status && d.bodies == c.bodies && d.aborted == c.aborted && d.userId == c.userId
  {
    if c.status == 0 then c.(cookies := c.cookies + [cookie]) else c
  }

  /** c.Set("user_id", id), read back by c.GetInt("user_id"). */
  function SetUserId(c: Ctx, id: int): (d: Ctx)
    ensures d.userId == Some(id)
    ensures d.status == c.status && d.bodies == c.bodies && d.cookies == c.cookies && d.aborted == c.aborted
  {
    c.(userId := Some(id))
  }

  /** Once a response has a status, nothing written later changes it. */
  lemma FirstStatusSticks(c: Ctx, code: int, body: Json, later: int, more: Json)
    requires code != 0 && later != 0
    ensures Status(JSON(JSON(c, code, body), later, more)) == Status(JSON(c, code, body))
    ensures JSON(JSON(c, code, body), later, more).bodies == c.bodies + [body, more]
  {
  }
}
