/** POST /api/admin/login: compares the posted credentials with the configured pair. */
module Login {
  import opened Wrappers
  import opened Json
  import opened Http
  import opened Cookies
  import Check

  const DefaultUsername: string := "admin"
  const DefaultPassword: string := "admin123"

  /** The environment variables ADMIN_USERNAME and ADMIN_PASSWORD; `None` when unset. */
  datatype Env = Env(adminUsername: Option<string>, adminPassword: Option<string>)

  /**
   * `process.env.X || fallback`: `||` tests truthiness, so a variable that is
   * unset or set to the empty string both give the fallback.
   */
  function Setting(v: Option<string>, fallback: string): (r: string)
    ensures v.Some? && v.value != "" ==> r == v.value
    ensures v.None? || v.value == "" ==> r == fallback
    ensures fallback != "" ==> r != ""
  {
    if v.Some? && v.value != "" then v.value else fallback
  }

  function Username(env: Env): string
  {
    Setting(env.adminUsername, DefaultUsername)
  }

  function Password(env: Env): string
  {
    Setting(env.adminPassword, DefaultPassword)
  }

  /**
   * `username === ADMIN_USERNAME && password === ADMIN_PASSWORD` after
   * `const { username, password } = body`: both posted fields must be strings
   * exactly equal to the configured ones.
   */
  predicate CredentialsMatch(env: Env, body: Value)
    ensures CredentialsMatch(env, body) <==>
              body.Obj? &&
              "username" in body.fields && body.fields["username"] == Str(Username(env)) &&
              "password" in body.fields && body.fields["password"] == Str(Password(env))
  {
    StrictEquals(Property(body, "username"), Some(Str(Username(env)))) &&
    StrictEquals(Property(body, "password"), Some(Str(Password(env))))
  }

  /** With neither variable set, the accepted pair is admin / admin123 and nothing else. */
  lemma DefaultCredentials(body: Value)
    ensures CredentialsMatch(Env(None, None), body) <==>
              body.Obj? &&
              "username" in body.fields && body.fields["username"] == Str("admin") &&
              "password" in body.fields && body.fields["password"] == Str("admin123")
  {
  }

  /** Whether a login request sets the session cookie. */
  predicate Succeeds(env: Env, body: Option<Value>, cookiesFail: bool)
  {
    body.Some? && !body.value.Null? && CredentialsMatch(env, body.value) && !cookiesFail
  }

  /**
   * The handler. `body` is `None` when `request.json()` throws; a `null` body
   * makes the destructuring throw; `cookiesFail` stands for `cookies().set`
   * throwing. All three are caught and answered with status 500.
   */
  method Post(jar: CookieJar, env: Env, body: Option<Value>, cookiesFail: bool) returns (resp: Response)
    modifies jar
    ensures Succeeds(env, body, cookiesFail) ==>
              jar.values == old(jar.values)[AdminToken := Authenticated] &&
              resp == Response(200, Message(true, "Login successful"))
    ensures Succeeds(env, body, cookiesFail) ==> Check.IsAuthenticated(jar.values)
    ensures !Succeeds(env, body, cookiesFail) ==> jar.values == old(jar.values)
    ensures body.None? || body.value.Null? ==> resp == Response(500, Message(false, "An error occurred"))
    ensures body.Some? && !body.value.Null? && !CredentialsMatch(env, body.value) ==>
              resp == Response(401, Message(false, "Invalid credentials"))
    ensures body.Some? && !body.value.Null? && CredentialsMatch(env, body.value) && cookiesFail ==>
              resp == Response(500, Message(false, "An error occurred"))
  {
    if body.None? || body.value.Null? {
      return Response(500, Message(false, "An error occurred"));
    }
    if CredentialsMatch(env, body.value) {
      if cookiesFail {
        return Response(500, Message(false, "An error occurred"));
      }
      jar.values := jar.values[AdminToken := Authenticated];
      return Response(200, Message(true, "Login successful"));
    }
    resp := Response(401, Message(false, "Invalid credentials"));
  }
}
