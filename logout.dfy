/** POST /api/admin/logout: removes the session cookie. */
module Logout {
  import opened Json
  import opened Http
  import opened Cookies
  import Check

  /** The handler; `cookiesFail` stands for `cookies().delete` throwing. */
  method Post(jar: CookieJar, cookiesFail: bool) returns (resp: Response)
    modifies jar
    ensures cookiesFail ==>
              jar.values == old(jar.values) && resp == Response(500, Message(false, "Failed to logout"))
    ensures !cookiesFail ==>
              jar.values == old(jar.values) - {AdminToken} &&
              resp == Response(200, Message(true, "Logged out successfully"))
    ensures !cookiesFail ==> !Check.IsAuthenticated(jar.values)
  {
    if cookiesFail {
      return Response(500, Message(false, "Failed to logout"));
    }
    jar.values := jar.values - {AdminToken};
    resp := Response(200, Message(true, "Logged out successfully"));
  }
}
