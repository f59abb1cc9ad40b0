# Temple-goods shop admin API — a Dafny model

This project models the server side of the shop's admin panel: the product
collection behind `/api/admin/products` (list, create, update, delete over a
JSON array kept in `data/products.json`), the admin session (a single
`admin_token` cookie that `/api/admin/login` sets, `/api/admin/logout`
removes, and `/api/admin/check` and the products gate test), and the image
upload's file-name sanitiser and stored-name composition.

Layout, one module per file:

- `wrappers.dfy` — `Option`.
- `json.dfy` — the JavaScript values the handlers see (`Value`, `Record`), property access, strict equality `===` and truthiness.
- `http.dfy` — responses (status and JSON body) and the `{ success, message }` / `{ error }` bodies.
- `decimal.dfy` — `Date.now().toString()` for time values, with its inverse.
- `cookies.dfy` — the cookie store as a class whose map the login and logout handlers update.
- `check.dfy`, `login.dfy`, `logout.dfy` — the three session routes.
- `products.dfy` — `checkAuth`, the pure `findIndex` / `find` / `filter` / merge on the collection, and `ProductStore`, a class over the data file whose methods are the four handlers.
- `upload.dfy` — the sanitiser, the stored name and the upload handler.
- `session.dfy` — request sequences across routes (login then check, logout then check or update, create then list or delete).

Behaviour the model exposes rather than repairs: POST stores the new id as the
decimal *string* of the time (`products/route.ts:70`), while DELETE looks for
`Number(...)` of the last path segment under `===` (`products/route.ts:134,137`).
A record created through POST therefore never matches, and DELETE answers 404
for it (`Products.PostedRecordUndeletable`, `Products.OnlyPostedRecordsNotFound`,
`Session.CreatedProductCannotBeDeleted`). The `Product` interface at
`products/route.ts:12-20` declares `id: number`; the model follows what the
code stores.

Strict equality is modelled as JavaScript defines it for values from separate
parses: primitives by value, `NaN` equal to nothing, arrays and objects never
equal (distinct references), and `undefined === undefined`. A PUT body without
an `id` therefore matches the first record that has none.

Inputs the model takes as parameters: the time (`Date.now()`), the number
parsed from the DELETE path, whether the cookie store throws (`cookiesFail`, on
the check, login and logout routes and inside `checkAuth` for PUT and DELETE),
the request bodies as already-parsed values (`None` when parsing throws), the
upload form field, and the blob store's `put` as a function from stored name
to URL.

## Model

| member | source | states |
|---|---|---|
| `Json.StrictEquals` | src/app/api/admin/products/route.ts:94 | `===` (also at products/route.ts:137 and 161 and login/route.ts:12) holds iff both sides are the same value and that value is `undefined`, `null`, a boolean, a number other than `NaN` or a string; arrays and objects from separate parses are never equal |
| `Json.Truthy` | src/app/api/admin/products/route.ts:147 | a value is falsy (the tests at products/route.ts:139 and upload/route.ts:17) iff it is `undefined`, `null`, `false`, `0`, `NaN` or the empty string |
| `Json.StrictEqualsSymmetric` | src/app/api/admin/products/route.ts:94 | `===` relates values the same way in both directions, and never relates a string to a number or `NaN` |
| `Json.NaNEqualsNothing` | src/app/api/admin/products/route.ts:134-137 | a `NaN` id (an unparsable DELETE path) strictly equals nothing, itself included |
| `Decimal.NatToString` | src/app/api/admin/products/route.ts:70 | the rendering of a non-negative time is a non-empty string of decimal digits without leading zeros, one digit exactly below ten |
| `Decimal.ToString` | src/app/api/admin/products/route.ts:70 | `Date.now().toString()` is digits, preceded by `-` exactly for a negative time |
| `Decimal.ParseToString` | src/app/api/admin/products/route.ts:69-70 | reading the rendered time back gives the time: the rendering loses nothing |
| `Decimal.ToStringInjective` | src/app/api/admin/products/route.ts:69-70 | distinct times render to distinct id strings |
| `Check.IsAuthenticated` | src/app/api/admin/check/route.ts:6-8 | `token?.value === 'authenticated'` holds iff the `admin_token` cookie is present with value exactly `authenticated` |
| `Check.Get` | src/app/api/admin/check/route.ts:4-15 | status is always 200 and the body is exactly `{ isAuthenticated }`, true iff the cookie store did not throw and `admin_token` exists with value exactly `authenticated`; the cookies are only read |
| `Check.OnlyExactValueAccepted` | src/app/api/admin/check/route.ts:8 | a session cookie is accepted iff its value is exactly `authenticated`; case variants are rejected |
| `Check.AbsentCookieRejected` | src/app/api/admin/check/route.ts:6-8 | without `admin_token` the session is not authenticated |
| `Login.Setting` | src/app/api/admin/login/route.ts:4-5 | `env || default`: a set, non-empty variable wins; an unset or empty one gives the default; the result is never empty |
| `Login.CredentialsMatch` | src/app/api/admin/login/route.ts:10-12 | credentials match iff the body is an object whose `username` and `password` are both strings exactly equal to the configured pair |
| `Login.DefaultCredentials` | src/app/api/admin/login/route.ts:4-12 | with neither variable set, exactly `admin` / `admin123` is accepted |
| `Login.Post` | src/app/api/admin/login/route.ts:7-42 | on a match the cookie `admin_token` becomes `authenticated`, all other cookies stay, the answer is 200 "Login successful" and the check then accepts; a mismatch gives 401 "Invalid credentials"; an unparsable or null body, or a failing cookie store, gives 500 "An error occurred"; the cookies change only on success |
| `Logout.Post` | src/app/api/admin/logout/route.ts:4-17 | removes `admin_token` and nothing else, answers 200 "Logged out successfully", after which the check rejects; a failing cookie store leaves the cookies and answers 500 "Failed to logout" |
| `Products.CheckAuth` | src/app/api/admin/products/route.ts:22-28 | passes (does not throw `Unauthorized`) iff `admin_token` is present with value exactly `authenticated` |
| `Products.CheckAuthAgreesWithCheck` | src/app/api/admin/products/route.ts:23-28 | the products gate passes exactly for the sessions the check endpoint reports as authenticated |
| `Products.FindIndex` | src/app/api/admin/products/route.ts:94 | -1 iff no record's id strictly equals the id; otherwise a matching position with no match before it |
| `Products.FindIndexAppendUnmatched` | src/app/api/admin/products/route.ts:94 | appending a non-matching record does not change the found position |
| `Products.Find` | src/app/api/admin/products/route.ts:137 | none iff no record matches; otherwise the record at the first matching position |
| `Products.WithoutId` | src/app/api/admin/products/route.ts:161 | no kept record matches; a record is kept iff it was present and does not match; the length is unchanged iff nothing matched |
| `Products.WithoutIdAppend` | src/app/api/admin/products/route.ts:161 | filtering distributes over concatenation, so kept records keep their relative order |
| `Products.WithoutIdUnmatched` | src/app/api/admin/products/route.ts:161 | when nothing matches, the filtered collection equals the original |
| `Products.UpdateData` | src/app/api/admin/products/route.ts:91 | the rest of the body holds every body property except `id`, with its value, and nothing else |
| `Products.Merge` | src/app/api/admin/products/route.ts:104-108 | the merged record keeps the original id (or lack of one); every update field other than `id` overrides; fields absent from the update keep their old values; no other keys appear |
| `Products.NewRecord` | src/app/api/admin/products/route.ts:67-70 | the created record's id is the decimal string of the time; every other posted field is kept; the keys are the posted ones plus `id` |
| `Products.NewRecordIdsDistinct` | src/app/api/admin/products/route.ts:69-70 | records created at distinct times get distinct ids |
| `Products.StringIdNeverMatchesNumber` | src/app/api/admin/products/route.ts:134-137 | a record whose id is a string never matches DELETE's numeric id |
| `Products.PostedRecordUndeletable` | src/app/api/admin/products/route.ts:70-161 | appending a POST-created record changes neither DELETE's lookup nor what its filter removes |
| `Products.OnlyPostedRecordsNotFound` | src/app/api/admin/products/route.ts:134-144 | in a collection whose ids are all strings, DELETE finds nothing for any number |
| `Products.Objects` | src/app/api/admin/products/route.ts:53 | the listed JSON array has one object per record, in order |
| `Products.ProductStore.EnsureDataDirectory` | src/app/api/admin/products/route.ts:30-37 | a missing data file is created holding `[]`; an existing one is left as it is |
| `Products.ProductStore.GetProductsData` | src/app/api/admin/products/route.ts:39-43 | after ensuring the file, yields its records, or fails when it is not valid JSON |
| `Products.ProductStore.SaveProductsData` | src/app/api/admin/products/route.ts:45-47 | the file holds exactly the given records |
| `Products.ProductStore.Get` | src/app/api/admin/products/route.ts:49-61 | answers 200 with the stored records unchanged (an empty list when there was no file); 500 "Failed to get products" when the file is not valid JSON |
| `Products.ProductStore.Post` | src/app/api/admin/products/route.ts:63-83 | without any session check, appends exactly one record, the posted object with the time's decimal string as id, after the unchanged earlier records and answers it; an unreadable file or a body that is not an object gives 500 "Failed to create product" and no new record |
| `Products.ProductStore.Put` | src/app/api/admin/products/route.ts:85-126 | a throwing cookie store in `checkAuth`: 500 "Failed to update product", file untouched; without the session: 401 "Unauthorized access", file untouched; unparsable or null body or unreadable file: 500; no strictly equal id: 404 "Product not found", records unchanged; otherwise only the first match is replaced by the merge, the length and every other position are unchanged, and the answer carries the merged record |
| `Products.ProductStore.Delete` | src/app/api/admin/products/route.ts:128-177 | a throwing cookie store in `checkAuth`: 500 "Failed to delete product", file untouched; without the session: 401, file untouched; unreadable file: 500; no record strictly equal to the number: 404, records unchanged; otherwise every matching record is removed, the rest kept in order, and the image is handed to blob deletion only when truthy, whose failure changes nothing |
| `Upload.Sanitize` | src/app/api/admin/upload/route.ts:26 | same length in UTF-16 code units; code units in `[a-zA-Z0-9.-]` stay at their position; every other one becomes `_` |
| `Upload.SanitizedIsClean` | src/app/api/admin/upload/route.ts:26 | every code unit of the result is in `[a-zA-Z0-9.-]` or is `_` |
| `Upload.CleanNameUnchanged` | src/app/api/admin/upload/route.ts:26 | a name made only of allowed code units is unchanged |
| `Upload.SanitizeIdempotent` | src/app/api/admin/upload/route.ts:26 | sanitising twice equals sanitising once |
| `Upload.AstralCharacterBecomesTwoUnderscores` | src/app/api/admin/upload/route.ts:26 | a character outside the Basic Multilingual Plane (a surrogate pair) becomes two underscores |
| `Upload.TimeUnits` | src/app/api/admin/upload/route.ts:25-27 | the time's decimal string as code units, one per character |
| `Upload.StoredName` | src/app/api/admin/upload/route.ts:25-27 | the stored name is the decimal time, then `-`, then the sanitised name |
| `Upload.TimeUnitsNoHyphen` | src/app/api/admin/upload/route.ts:25-27 | past an optional leading minus sign the time's digits contain no `-` |
| `Upload.StoredNameDeterminesParts` | src/app/api/admin/upload/route.ts:24-27 | the stored name determines the time and the sanitised name, so uploads at distinct times get distinct names |
| `Upload.Post` | src/app/api/admin/upload/route.ts:12-42 | 400 "No file provided" iff the field is absent or an empty text; 200 iff a file was given and the blob store answered, with a body holding only its URL; every other case 500 "Failed to upload file" |
| `Session.LoginThenCheck` | src/app/api/admin/login/route.ts:12-29 | logging in with the configured pair gives "Login successful", after which the check answers `isAuthenticated: true` and the products gate passes |
| `Session.LogoutThenCheck` | src/app/api/admin/logout/route.ts:6-10 | after logging out the check answers `isAuthenticated: false` and the products gate rejects |
| `Session.LogoutThenPut` | src/app/api/admin/products/route.ts:117-125 | after logging out an update answers 401 "Unauthorized access" and the data file is unchanged |
| `Session.LogoutTwice` | src/app/api/admin/logout/route.ts:6 | two logouts leave the cookies as one does, and both succeed |
| `Session.PostThenGet` | src/app/api/admin/products/route.ts:64-75 | a created product is listed by the next GET as the last entry |
| `Session.CreatedProductCannotBeDeleted` | src/app/api/admin/products/route.ts:70-144 | from no data file, a product created through POST survives an authorised DELETE for any number, which answers 404 |

## Left out

- The React pages and components, the layout and styling configuration, the order e-mail route (`submit-order`) and the client-side `fetch` wrappers are not part of this model.
- File-system and blob-storage internals: reading, writing and creating `data/products.json` are modelled as reading and replacing a `DataFile` value; write failures are not modelled (every save succeeds), nor is the JSON formatting or the order of keys in a record.
- A data file that holds valid JSON other than an array of objects is not modelled; apart from the array-body POST listed below, the handlers only ever write arrays of objects.
- `Products.UpdateData`: a string or array PUT body would spread its indexed characters or elements into the record; the model treats such bodies, like numbers and booleans, as carrying no fields.
- `Products.ProductStore.Post`: an array request body would get an `id` property and be appended as an array (losing the id when written); the model answers it with 500 like the other non-object bodies, which do throw.
- `Number(...)` on the DELETE path is a parameter; `Infinity` is not distinguished from `NaN`, which gives the same outcome because no id the handlers write can be infinite (`JSON.stringify` writes an infinite number as `null`).
- URL parsing of the product image and the blob `del` call: the model records which image value is handed over, not the path extracted from it; the call's failure is caught in the source and has no effect.
- The blob `put` is a function parameter; the `file` payload itself, the `access` option and the module-load warning about a missing blob token are not modelled.
- `Date.now()` is a parameter; cookie attributes (`httpOnly`, `secure`, `sameSite`, `path`) and console logging are not modelled.
- JavaScript numbers are modelled as exact reals standing for the parsed doubles; `Infinity` and `-Infinity`, which `JSON.parse` yields for overflowing literals such as `1e999` (and which `JSON.stringify` later writes as `null`), are not representable.
- JSON strings are Dafny strings of Unicode scalar values, so lone surrogates in request bodies are not representable; the uploaded file name alone is modelled as UTF-16 code units, because the sanitiser works on those.
- Concurrent requests racing on the data file: requests are modelled one at a time.
