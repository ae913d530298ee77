// frontend/app/api/auth/login/route.ts: the Next.js route that checks the
// login form, forwards it to the backend's `/auth/login`, and on success sets
// the access-token cookie and names the page to go to.  The backend call is
// the `backend` parameter: the form it is sent, and the reply it gives (its
// `ok` flag and its body, `None` when the body is not JSON).  The framework's
// response object is modelled as the returned value.
module LoginRoute {
  import opened Results
  import opened Strings
  import opened Json

  const AccessCookieName := "fruitful_access_token"
  const MissingFieldsMessage := "Email and password are required"
  const DefaultFailureMessage := "Invalid email or password. Please try again."
  const DefaultRedirect := "/dashboard"
  /** Four hours, in seconds. */
  const CookieMaxAge := 60 * 60 * 4

  /** The URL-encoded form posted to the backend. */
  datatype BackendForm = BackendForm(username: string, password: string)

  datatype BackendReply = BackendReply(ok: bool, body: Option<Json>)

  datatype SameSite = Lax | Strict | NoRestriction

  /** The attributes of `res.cookies.set`; `value` is the reply's `access_token` as read, `None` when absent. */
  datatype Cookie = Cookie(name: string, value: Option<Json>, httpOnly: bool, secure: bool, sameSite: SameSite, path: string, maxAge: int)

  /** 400 with a message, 401 with the forwarded detail, 200 with the cookie, or an unhandled error (500). */
  datatype LoginResponse =
    | BadRequest(message: string)
    | Unauthorized(detail: Json)
    | Success(redirectTo: string, cookie: Cookie)
    | Crashed

  /** The e-mail and password of a request body, when both are strings. */
  function Credentials(body: Option<Json>): (r: Option<BackendForm>)
    ensures r.Some? <==> AsString(Get(body, "email")).Some? && AsString(Get(body, "password")).Some?
    ensures r.Some? ==> (r.value.username == AsString(Get(body, "email")).value
      && r.value.password == AsString(Get(body, "password")).value)
  {
    match (AsString(Get(body, "email")), AsString(Get(body, "password")))
    case (Some(e), Some(p)) => Some(BackendForm(e, p))
    case _ => None
  }

  /** `detail.detail ?? default` over the failed reply's body, `{}` standing in for a body that is not JSON. */
  function FailureDetail(body: Option<Json>): (d: Json)
    ensures Get(body, "detail").Some? && Get(body, "detail").value != JNull ==> d == Get(body, "detail").value
    ensures Get(body, "detail").None? || Get(body, "detail").value == JNull ==> d == JStr(DefaultFailureMessage)
  {
    match Get(body, "detail")
    case None => JStr(DefaultFailureMessage)
    case Some(JNull) => JStr(DefaultFailureMessage)
    case Some(v) => v
  }

  /** The page to go to: the body's `next` when it is a string starting with "/", else the dashboard. */
  function RedirectTarget(body: Option<Json>): (target: string)
    ensures StartsWith(target, "/")
    ensures AsString(Get(body, "next")).Some? && StartsWith(AsString(Get(body, "next")).value, "/") ==>
      target == AsString(Get(body, "next")).value
  {
    match AsString(Get(body, "next"))
    case Some(n) => if StartsWith(n, "/") then n else DefaultRedirect
    case None => DefaultRedirect
  }

  /** The session cookie: HTTP-only, same-site lax, the whole site, four hours, secure in production. */
  function AccessCookie(token: Option<Json>, production: bool): (c: Cookie)
    ensures c.name == AccessCookieName && c.value == token
    ensures c.httpOnly && c.sameSite == Lax && c.path == "/"
    ensures c.maxAge == 14400 && c.secure == production
  {
    Cookie(AccessCookieName, token, true, production, Lax, "/", CookieMaxAge)
  }

  /** POST: body check, backend call, failure forwarding, then the cookie and the redirect target. */
  function Post(body: Option<Json>, backend: BackendForm -> BackendReply, production: bool): (res: LoginResponse)
    ensures res.Success? ==> (res.cookie.name == AccessCookieName && res.cookie.httpOnly && res.cookie.sameSite == Lax
      && res.cookie.path == "/" && res.cookie.maxAge == 14400 && res.cookie.secure == production)
  {
    match Credentials(body)
    case None => BadRequest(MissingFieldsMessage)
    case Some(form) =>
      var reply := backend(form);
      if !reply.ok then Unauthorized(FailureDetail(reply.body))
      else if reply.body.None? || reply.body.value == JNull then Crashed
      else Success(RedirectTarget(body), AccessCookie(Get(reply.body, "access_token"), production))
  }

  /** A body without string e-mail and password is refused with 400 whatever the backend would say. */
  lemma MissingFieldsRefusedBeforeBackend(body: Option<Json>, backend1: BackendForm -> BackendReply, backend2: BackendForm -> BackendReply, production: bool)
    requires AsString(Get(body, "email")).None? || AsString(Get(body, "password")).None?
    ensures Post(body, backend1, production) == BadRequest(MissingFieldsMessage)
    ensures Post(body, backend1, production) == Post(body, backend2, production)
  {
  }

  /** The backend is asked with the e-mail as the username and the password unchanged, and only that reply matters. */
  lemma FormCarriesCredentials(email: string, password: string, fields: map<string, Json>, backend1: BackendForm -> BackendReply, backend2: BackendForm -> BackendReply, production: bool)
    requires "email" in fields && fields["email"] == JStr(email)
    requires "password" in fields && fields["password"] == JStr(password)
    requires backend1(BackendForm(email, password)) == backend2(BackendForm(email, password))
    ensures Post(Some(JObj(fields)), backend1, production) == Post(Some(JObj(fields)), backend2, production)
    ensures Post(Some(JObj(fields)), backend1, production) != BadRequest(MissingFieldsMessage)
  {
  }

  /** A refused login is a 401 that forwards the backend's detail when it has one. */
  lemma FailureIsUnauthorized(body: Option<Json>, backend: BackendForm -> BackendReply, production: bool)
    requires Credentials(body).Some? && !backend(Credentials(body).value).ok
    ensures Post(body, backend, production) == Unauthorized(FailureDetail(backend(Credentials(body).value).body))
  {
  }

  /** A failed reply whose body is not JSON, or has no detail, gets the default message. */
  lemma FailureDefaultMessage()
    ensures FailureDetail(None) == JStr(DefaultFailureMessage)
    ensures FailureDetail(Some(JObj(map["detail" := JNull]))) == JStr(DefaultFailureMessage)
    ensures FailureDetail(Some(JObj(map["detail" := JStr("Incorrect email or password")]))) == JStr("Incorrect email or password")
  {
  }

  /** The redirect target is the requested `next` exactly when that is a string starting with "/". */
  lemma RedirectTargetSpec(body: Option<Json>)
    ensures RedirectTarget(body) == DefaultRedirect <==>
      AsString(Get(body, "next")).None? || !StartsWith(AsString(Get(body, "next")).value, "/")
      || AsString(Get(body, "next")).value == DefaultRedirect
  {
  }

  /** Only the leading "/" is checked, so a protocol-relative "//host" target is passed on as it is. */
  lemma ProtocolRelativeTargetAccepted(fields: map<string, Json>)
    requires "next" in fields && fields["next"] == JStr("//evil.example")
    ensures RedirectTarget(Some(JObj(fields))) == "//evil.example"
  {
    assert StartsWith("//evil.example", "/");
  }

  /** On success the cookie carries the backend's token with the fixed attributes, `secure` only in production. */
  lemma SuccessSetsCookie(body: Option<Json>, backend: BackendForm -> BackendReply, production: bool)
    requires Credentials(body).Some?
    requires var reply := backend(Credentials(body).value); reply.ok && reply.body.Some? && reply.body.value.JObj?
    ensures var reply := backend(Credentials(body).value);
      Post(body, backend, production) == Success(RedirectTarget(body), Cookie(AccessCookieName, Get(reply.body, "access_token"), true, production, Lax, "/", 14400))
  {
  }
}
