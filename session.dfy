/**
 * Request sequences across the admin routes: the session cookie that login
 * sets and logout removes is what the check endpoint and the products gate
 * read, and a product created through POST stays out of DELETE's reach.
 */
module Session {
  import opened Wrappers
  import opened Json
  import opened Http
  import opened Cookies
  import opened Decimal
  import Check
  import Login
  import Logout
  import Products

  /** Logging in with the configured pair, then checking: both gates accept the session. */
  method LoginThenCheck(jar: CookieJar, env: Login.Env) returns (login: Response, check: Response)
    modifies jar
    ensures login == Response(200, Message(true, "Login successful"))
    ensures check == Response(200, Obj(map["isAuthenticated" := Bool(true)]))
    ensures Products.CheckAuth(jar.values)
  {
    var body := Obj(map["username" := Str(Login.Username(env)), "password" := Str(Login.Password(env))]);
    login := Login.Post(jar, env, Some(body), false);
    check := Check.Get(jar.values, false);
    Products.CheckAuthAgreesWithCheck(jar.values);
  }

  /** Logging out, then checking: the session is gone for both gates. */
  method LogoutThenCheck(jar: CookieJar) returns (logout: Response, check: Response)
    modifies jar
    ensures logout == Response(200, Message(true, "Logged out successfully"))
    ensures check == Response(200, Obj(map["isAuthenticated" := Bool(false)]))
    ensures !Products.CheckAuth(jar.values)
  {
    logout := Logout.Post(jar, false);
    check := Check.Get(jar.values, false);
    Products.CheckAuthAgreesWithCheck(jar.values);
  }

  /** After logout an update is refused and the products file is left alone. */
  method LogoutThenPut(jar: CookieJar, store: Products.ProductStore, body: Option<Value>) returns (put: Response)
    modifies jar, store
    ensures put == Response(401, Message(false, "Unauthorized access"))
    ensures store.file == old(store.file)
  {
    var _ := Logout.Post(jar, false);
    Products.CheckAuthAgreesWithCheck(jar.values);
    put := store.Put(jar.values, false, body);
  }

  /** Logging out twice leaves the cookies as logging out once does. */
  method LogoutTwice(jar: CookieJar) returns (first: Response, second: Response)
    modifies jar
    ensures jar.values == old(jar.values) - {AdminToken}
    ensures first == second == Response(200, Message(true, "Logged out successfully"))
  {
    first := Logout.Post(jar, false);
    second := Logout.Post(jar, false);
  }

  /** A product created through POST is listed by the next GET, as the last entry. */
  method PostThenGet(store: Products.ProductStore, fields: Record, now: TimeValue) returns (list: Response)
    requires !store.file.Unparsable?
    modifies store
    ensures list.status == 200 && list.body.Arr? && |list.body.items| >= 1
    ensures list.body.items[|list.body.items| - 1] == Obj(Products.NewRecord(fields, now))
  {
    var _ := store.Post(Some(Obj(fields)), now);
    list := store.Get();
  }

  /**
   * Starting from no products file, a product created through POST is still
   * there after an authorised DELETE for any number: POST stores the id as a
   * string and DELETE compares it with a number under `===`.
   */
  method CreatedProductCannotBeDeleted(
    store: Products.ProductStore, cookies: map<string, string>,
    fields: Record, now: TimeValue, target: Products.NumberValue)
    returns (deleted: Response)
    requires store.file.Missing?
    requires Check.IsAuthenticated(cookies)
    modifies store
    ensures deleted == Response(404, Message(false, "Product not found"))
    ensures store.file == Products.Holds([Products.NewRecord(fields, now)])
  {
    var _ := store.Post(Some(Obj(fields)), now);
    assert store.file == Products.Holds([] + [Products.NewRecord(fields, now)]);
    Products.OnlyPostedRecordsNotFound([Products.NewRecord(fields, now)], target);
    Products.CheckAuthAgreesWithCheck(cookies);
    var image;
    deleted, image := store.Delete(cookies, false, target);
  }
}
