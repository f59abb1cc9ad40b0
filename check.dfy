/** GET /api/admin/check: reports whether the session cookie is present and valid. */
module Check {
  import opened Wrappers
  import opened Json
  import opened Http
  import opened Cookies

  /**
   * `cookies().get('admin_token')?.value === 'authenticated'`: the session is
   * authenticated iff the cookie exists and holds exactly that value.
   */
  predicate IsAuthenticated(values: map<string, string>)
    ensures IsAuthenticated(values) <==> AdminToken in values && values[AdminToken] == Authenticated
  {
    var token := if AdminToken in values then Some(values[AdminToken]) else None;
    token.Some? && token.value == Authenticated
  }

  /**
   * The handler. It only reads the cookies; `cookiesFail` stands for
   * `cookies()` throwing, which is caught and answered as "not
   * authenticated" with the ordinary status.
   */
  function Get(values: map<string, string>, cookiesFail: bool): (resp: Response)
    ensures resp.status == 200
    ensures resp.body.Obj? && resp.body.fields.Keys == {"isAuthenticated"}
    ensures resp.body.fields["isAuthenticated"].Bool?
    ensures resp.body.fields["isAuthenticated"].b <==>
              !cookiesFail && AdminToken in values && values[AdminToken] == Authenticated
  {
    if cookiesFail then Response(200, Obj(map["isAuthenticated" := Bool(false)]))
    else Response(200, Obj(map["isAuthenticated" := Bool(IsAuthenticated(values))]))
  }

  /** Only the exact value `authenticated` is accepted; case variants are not. */
  lemma OnlyExactValueAccepted(values: map<string, string>, v: string)
    ensures IsAuthenticated(values[AdminToken := v]) <==> v == Authenticated
    ensures !IsAuthenticated(values[AdminToken := "Authenticated"])
    ensures !IsAuthenticated(values[AdminToken := "AUTHENTICATED"])
  {
  }

  /** Without the cookie the session is not authenticated. */
  lemma AbsentCookieRejected(values: map<string, string>)
    requires AdminToken !in values
    ensures !IsAuthenticated(values)
  {
  }
}
