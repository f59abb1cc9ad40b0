/**
 * The request's cookie store (`cookies()` from next/headers), reduced to
 * what the admin routes use: a map from cookie name to value, in which the
 * session is the single cookie `admin_token`.
 */
module Cookies {

  const AdminToken: string := "admin_token"
  const Authenticated: string := "authenticated"

  class CookieJar {
    var values: map<string, string>

    constructor (values: map<string, string>)
      ensures this.values == values
    {
      this.values := values;
    }
  }
}
