/**
 * /api/admin/products: the product collection kept as a JSON array in the
 * file data/products.json, and its four handlers GET (list), POST (create),
 * PUT (update) and DELETE. Every handler that gets past its gate loads the
 * whole array (creating an empty file when there is none); POST, and PUT or
 * DELETE when they succeed, write the whole array back.
 */
module Products {
  import opened Wrappers
  import opened Json
  import opened Http
  import opened Cookies
  import opened Decimal
  import Check

  /** The result of `Number(...)` on the last path segment of a DELETE URL. */
  type NumberValue = v: Value | v.Num? || v.NaN? witness NaN

  /**
   * `checkAuth`: passes when the `admin_token` cookie exists and its value is
   * exactly `authenticated`; otherwise it throws `Unauthorized`.
   */
  predicate CheckAuth(cookies: map<string, string>)
    ensures CheckAuth(cookies) <==> AdminToken in cookies && cookies[AdminToken] == Authenticated
  {
    var token := if AdminToken in cookies then Some(cookies[AdminToken]) else None;
    !(token.None? || token.value != Authenticated)
  }

  /** The products gate and the check endpoint accept exactly the same sessions. */
  lemma CheckAuthAgreesWithCheck(cookies: map<string, string>)
    ensures CheckAuth(cookies) <==> Check.IsAuthenticated(cookies)
  {
  }

  // ---------------------------------------------------------------------------
  // Records and the pure operations on the collection

  /** `p.id`; `None` when the record has no id. */
  function Id(p: Record): Option<Value>
  {
    Get(p, "id")
  }

  /** `p.id === id`, the test used by `findIndex`, `find` and `filter`. */
  predicate HasId(p: Record, id: Option<Value>)
  {
    StrictEquals(Id(p), id)
  }

  /** `products.findIndex(p => p.id === id)`: the first matching position, or -1. */
  function FindIndex(products: seq<Record>, id: Option<Value>): (i: int)
    ensures i == -1 <==> forall k :: 0 <= k < |products| ==> !HasId(products[k], id)
    ensures i != -1 ==> 0 <= i < |products| && HasId(products[i], id)
    ensures i != -1 ==> forall k :: 0 <= k < i ==> !HasId(products[k], id)
    decreases |products|
  {
    if products == [] then -1
    else if HasId(products[0], id) then 0
    else
      var j := FindIndex(products[1..], id);
      if j == -1 then -1 else j + 1
  }

  /** `products.find(p => p.id === id)`: the first matching record, if any. */
  function Find(products: seq<Record>, id: Option<Value>): (r: Option<Record>)
    ensures r.None? <==> forall k :: 0 <= k < |products| ==> !HasId(products[k], id)
    ensures r.Some? ==> r.value in products && HasId(r.value, id)
    ensures r.Some? ==> r.value == products[FindIndex(products, id)]
  {
    var i := FindIndex(products, id);
    if i == -1 then None else Some(products[i])
  }

  /** `products.filter(p => p.id !== id)` */
  function WithoutId(products: seq<Record>, id: Option<Value>): (r: seq<Record>)
    ensures forall k :: 0 <= k < |r| ==> !HasId(r[k], id)
    ensures forall p :: p in r <==> p in products && !HasId(p, id)
    ensures |r| == |products| <==> forall k :: 0 <= k < |products| ==> !HasId(products[k], id)
    ensures |r| <= |products|
    decreases |products|
  {
    if products == [] then []
    else (if HasId(products[0], id) then [] else [products[0]]) + WithoutId(products[1..], id)
  }

  /** Filtering distributes over concatenation: the kept records stay in their order. */
  lemma {:induction false} WithoutIdAppend(a: seq<Record>, b: seq<Record>, id: Option<Value>)
    ensures WithoutId(a + b, id) == WithoutId(a, id) + WithoutId(b, id)
    decreases |a|
  {
    if a == [] {
      assert a + b == b;
    } else {
      assert (a + b)[1..] == a[1..] + b;
      WithoutIdAppend(a[1..], b, id);
    }
  }

  /** When nothing matches, filtering leaves the collection exactly as it was. */
  lemma {:induction false} WithoutIdUnmatched(products: seq<Record>, id: Option<Value>)
    requires forall k :: 0 <= k < |products| ==> !HasId(products[k], id)
    ensures WithoutId(products, id) == products
    decreases |products|
  {
    if products != [] {
      WithoutIdUnmatched(products[1..], id);
    }
  }

  /** `const { id, ...updateData } = body`: the id half of a non-null PUT body. */
  function BodyId(body: Value): Option<Value>
  {
    Property(body, "id")
  }

  /** The `...updateData` half: every own property of the body except `id`. */
  function UpdateData(body: Value): (r: Record)
    ensures "id" !in r
    ensures body.Obj? ==> forall k :: k in body.fields && k != "id" ==> k in r && r[k] == body.fields[k]
    ensures forall k :: k in r ==> body.Obj? && k in body.fields
  {
    if body.Obj? then body.fields - {"id"} else map[]
  }

  /**
   * `{ ...current, ...updateData, id: current.id }`. When `current` has no id,
   * the last spread writes `id: undefined`, which the JSON the handler writes
   * and answers with leaves out; the record then has no id.
   */
  function Merge(current: Record, updateData: Record): (r: Record)
    ensures Id(r) == Id(current)
    ensures forall k :: k != "id" ==> (k in r <==> k in current || k in updateData)
    ensures forall k :: k in updateData && k != "id" ==> r[k] == updateData[k]
    ensures forall k :: k in current && k !in updateData ==> r[k] == current[k]
  {
    var spread := current + updateData;
    if "id" in current then spread["id" := current["id"]] else spread - {"id"}
  }

  /** `product.id = Date.now().toString()` on a posted object. */
  function NewRecord(fields: Record, now: TimeValue): (r: Record)
    ensures Id(r) == Some(Str(Decimal.ToString(now)))
    ensures r.Keys == fields.Keys + {"id"}
    ensures forall k :: k in fields && k != "id" ==> r[k] == fields[k]
  {
    fields["id" := Str(Decimal.ToString(now))]
  }

  /** Records posted at distinct times get distinct ids. */
  lemma NewRecordIdsDistinct(f: Record, g: Record, t: TimeValue, u: TimeValue)
    requires t != u
    ensures Id(NewRecord(f, t)) != Id(NewRecord(g, u))
  {
    ToStringInjective(t, u);
  }

  /** A record whose id is a string never strictly equals the number DELETE looks for. */
  lemma StringIdNeverMatchesNumber(p: Record, target: NumberValue)
    requires Id(p).Some? && Id(p).value.Str?
    ensures !HasId(p, Some(target))
  {
  }

  /** Appending a record that does not match leaves `findIndex` unchanged. */
  lemma {:induction false} FindIndexAppendUnmatched(products: seq<Record>, rec: Record, id: Option<Value>)
    requires !HasId(rec, id)
    ensures FindIndex(products + [rec], id) == FindIndex(products, id)
    decreases |products|
  {
    if products != [] {
      assert (products + [rec])[1..] == products[1..] + [rec];
      FindIndexAppendUnmatched(products[1..], rec, id);
    }
  }

  /**
   * POST stores its id as a string while DELETE looks for a number, so a
   * record created by POST can neither be found nor removed by DELETE: adding
   * it changes neither the lookup nor, apart from the record itself, the
   * filtered collection.
   */
  lemma PostedRecordUndeletable(products: seq<Record>, fields: Record, now: TimeValue, target: NumberValue)
    ensures Find(products + [NewRecord(fields, now)], Some(target)) == Find(products, Some(target))
    ensures WithoutId(products + [NewRecord(fields, now)], Some(target)) ==
            WithoutId(products, Some(target)) + [NewRecord(fields, now)]
  {
    var rec := NewRecord(fields, now);
    StringIdNeverMatchesNumber(rec, target);
    FindIndexAppendUnmatched(products, rec, Some(target));
    var i := FindIndex(products, Some(target));
    if i != -1 {
      assert (products + [rec])[i] == products[i];
    }
    WithoutIdAppend(products, [rec], Some(target));
    WithoutIdUnmatched([rec], Some(target));
  }

  /** A collection filled only through POST has nothing DELETE can find. */
  lemma OnlyPostedRecordsNotFound(products: seq<Record>, target: NumberValue)
    requires forall k :: 0 <= k < |products| ==> Id(products[k]).Some? && Id(products[k]).value.Str?
    ensures Find(products, Some(target)) == None
  {
  }

  // ---------------------------------------------------------------------------
  // The data file and the handlers

  /** data/products.json: absent, holding an array of records, or not valid JSON. */
  datatype DataFile = Missing | Holds(products: seq<Record>) | Unparsable

  /** The file after `ensureDataDirectory`: a missing file is created holding `[]`. */
  function Ensured(f: DataFile): DataFile
  {
    if f.Missing? then Holds([]) else f
  }

  /** The records as the JSON array a response carries. */
  function Objects(products: seq<Record>): (vs: seq<Value>)
    ensures |vs| == |products|
    ensures forall k :: 0 <= k < |products| ==> vs[k] == Obj(products[k])
  {
    seq(|products|, k requires 0 <= k < |products| => Obj(products[k]))
  }

  function Updated(product: Record): Value
  {
    Obj(map["success" := Bool(true), "message" := Str("Product updated successfully"),
            "product" := Obj(product)])
  }

  class ProductStore {
    var file: DataFile

    constructor (file: DataFile)
      ensures this.file == file
    {
      this.file := file;
    }

    /** `ensureDataDirectory` */
    method EnsureDataDirectory()
      modifies this
      ensures file == Ensured(old(file))
    {
      if file.Missing? {
        file := Holds([]);
      }
    }

    /** `getProductsData`: `None` when `JSON.parse` throws. */
    method GetProductsData() returns (products: Option<seq<Record>>)
      modifies this
      ensures file == Ensured(old(file))
      ensures products.Some? <==> file.Holds?
      ensures products.Some? ==> products.value == file.products
    {
      EnsureDataDirectory();
      if file.Holds? {
        products := Some(file.products);
      } else {
        products := None;
      }
    }

    /** `saveProductsData` */
    method SaveProductsData(products: seq<Record>)
      modifies this
      ensures file == Holds(products)
    {
      file := Holds(products);
    }

    /** GET: answers with the stored collection, creating an empty one first if none exists. */
    method Get() returns (resp: Response)
      modifies this
      ensures file == Ensured(old(file))
      ensures old(file).Holds? ==> file == old(file)
      ensures file.Holds? ==> resp == Response(200, Arr(Objects(file.products)))
      ensures file.Unparsable? ==> resp == Response(500, ErrorBody("Failed to get products"))
    {
      var products := GetProductsData();
      if products.None? {
        return Response(500, ErrorBody("Failed to get products"));
      }
      resp := Response(200, Arr(Objects(products.value)));
    }

    /**
     * POST: appends the posted object with a fresh id. `body` is `None` when
     * `request.json()` throws; a body that is not an object makes the id
     * assignment throw. No session is required.
     */
    method Post(body: Option<Value>, now: TimeValue) returns (resp: Response)
      modifies this
      ensures Ensured(old(file)).Holds? && body.Some? && body.value.Obj? ==>
                var rec := NewRecord(body.value.fields, now);
                file == Holds(Ensured(old(file)).products + [rec]) &&
                resp == Response(200, Obj(rec))
      ensures !(Ensured(old(file)).Holds? && body.Some? && body.value.Obj?) ==>
                file == Ensured(old(file)) &&
                resp == Response(500, ErrorBody("Failed to create product"))
    {
      var loaded := GetProductsData();
      if loaded.None? || body.None? || !body.value.Obj? {
        return Response(500, ErrorBody("Failed to create product"));
      }
      var products := loaded.value;
      var product := NewRecord(body.value.fields, now);
      products := products + [product];
      SaveProductsData(products);
      resp := Response(200, Obj(product));
    }

    /**
     * PUT: merges the body into the first record whose id strictly equals the
     * body's id. `body` is `None` when `request.json()` throws; a `null` body
     * makes the destructuring throw; `cookiesFail` stands for `cookies()`
     * throwing inside `checkAuth`, which is not the `Unauthorized` error and
     * so is answered with 500.
     */
    method Put(cookies: map<string, string>, cookiesFail: bool, body: Option<Value>) returns (resp: Response)
      modifies this
      ensures cookiesFail ==>
                file == old(file) && resp == Response(500, Message(false, "Failed to update product"))
      ensures !cookiesFail && !CheckAuth(cookies) ==>
                file == old(file) && resp == Response(401, Message(false, "Unauthorized access"))
      ensures !cookiesFail && CheckAuth(cookies) && (body.None? || body.value.Null? || Ensured(old(file)).Unparsable?) ==>
                file == (if body.None? || body.value.Null? then old(file) else Ensured(old(file))) &&
                resp == Response(500, Message(false, "Failed to update product"))
      ensures !cookiesFail && CheckAuth(cookies) && body.Some? && !body.value.Null? && Ensured(old(file)).Holds? ==>
                var products := Ensured(old(file)).products;
                var i := FindIndex(products, BodyId(body.value));
                (i == -1 ==>
                   file == Holds(products) &&
                   resp == Response(404, Message(false, "Product not found"))) &&
                (i != -1 ==>
                   var merged := Merge(products[i], UpdateData(body.value));
                   file == Holds(products[i := merged]) &&
                   resp == Response(200, Updated(merged)))
      ensures !cookiesFail && CheckAuth(cookies) && body.Some? && !body.value.Null? && Ensured(old(file)).Holds? ==>
                var products := Ensured(old(file)).products;
                file.Holds? && |file.products| == |products| &&
                forall k :: 0 <= k < |products| && k != FindIndex(products, BodyId(body.value)) ==>
                  file.products[k] == products[k]
    {
      if cookiesFail {
        return Response(500, Message(false, "Failed to update product"));
      }
      if !CheckAuth(cookies) {
        return Response(401, Message(false, "Unauthorized access"));
      }
      if body.None? || body.value.Null? {
        return Response(500, Message(false, "Failed to update product"));
      }
      var id := BodyId(body.value);
      var updateData := UpdateData(body.value);
      var loaded := GetProductsData();
      if loaded.None? {
        return Response(500, Message(false, "Failed to update product"));
      }
      var products := loaded.value;
      var index := FindIndex(products, id);
      if index == -1 {
        return Response(404, Message(false, "Product not found"));
      }
      products := products[index := Merge(products[index], updateData)];
      SaveProductsData(products);
      resp := Response(200, Updated(products[index]));
    }

    /**
     * DELETE: removes every record whose id strictly equals `target`, the
     * number parsed from the request path. `imageToDelete` is the image value
     * handed to the blob deletion, which happens only when the found record's
     * image is truthy; any failure of that deletion is swallowed, so it has no
     * bearing on the collection or the response. `cookiesFail` stands for
     * `cookies()` throwing inside `checkAuth`, answered with 500.
     */
    method Delete(cookies: map<string, string>, cookiesFail: bool, target: NumberValue)
      returns (resp: Response, imageToDelete: Option<Value>)
      modifies this
      ensures cookiesFail ==>
                file == old(file) && imageToDelete.None? &&
                resp == Response(500, Message(false, "Failed to delete product"))
      ensures !cookiesFail && !CheckAuth(cookies) ==>
                file == old(file) && imageToDelete.None? &&
                resp == Response(401, Message(false, "Unauthorized access"))
      ensures !cookiesFail && CheckAuth(cookies) && Ensured(old(file)).Unparsable? ==>
                file == old(file) && imageToDelete.None? &&
                resp == Response(500, Message(false, "Failed to delete product"))
      ensures !cookiesFail && CheckAuth(cookies) && Ensured(old(file)).Holds? ==>
                var products := Ensured(old(file)).products;
                var found := Find(products, Some(target));
                (found.None? ==>
                   file == Holds(products) && imageToDelete.None? &&
                   resp == Response(404, Message(false, "Product not found"))) &&
                (found.Some? ==>
                   file == Holds(WithoutId(products, Some(target))) &&
                   imageToDelete == (if Truthy(Json.Get(found.value, "image")) then Json.Get(found.value, "image") else None) &&
                   resp == Response(200, Message(true, "Product deleted successfully")))
    {
      imageToDelete := None;
      if cookiesFail {
        return Response(500, Message(false, "Failed to delete product")), None;
      }
      if !CheckAuth(cookies) {
        return Response(401, Message(false, "Unauthorized access")), None;
      }
      var loaded := GetProductsData();
      if loaded.None? {
        return Response(500, Message(false, "Failed to delete product")), None;
      }
      var products := loaded.value;
      var productToDelete := Find(products, Some(target));
      if productToDelete.None? {
        return Response(404, Message(false, "Product not found")), None;
      }
      var image := Json.Get(productToDelete.value, "image");
      if Truthy(image) {
        imageToDelete := image;
      }
      SaveProductsData(WithoutId(products, Some(target)));
      resp := Response(200, Message(true, "Product deleted successfully"));
    }
  }
}
