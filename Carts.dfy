/** The cart router: listing with an optional limit, lookup and replacement by
    id, and creation after three ordered checks against the request body and
    the product collection. */
module Carts {
  import opened Http
  import Products

  /** One line of a cart: a product id and how many of it. */
  datatype Item = Item(product: string, quantity: int)

  /** A cart document. */
  datatype Cart = Cart(id: Products.ObjectId, products: seq<Item>)

  /** The `POST /` body: an `_id` the client may have sent, and its `products`. */
  datatype CartBody = CartBody(id: Option<string>, products: Option<seq<Item>>)

  datatype Body =
    | CartArray(carts: seq<Cart>)                // the bare array answered with 206
    | CartsObject(carts: seq<Cart>)              // { carts }
    | Error(error: string)                       // { error }
    | Failure(status: string, error: string)     // { status: 'error', error }
    | Success(status: string, payload: Cart)     // { status: 'success', payload: cart }
    | UpdateResult(status: string, matched: nat) // { status: 'success', payload: updateOne's result }

  /** Position of the cart with that id, if the collection holds one: the
      cart `findById(cid)` / `updateOne({ _id: cid })` address. */
  function Position(carts: seq<Cart>, id: Products.ObjectId): (k: Option<nat>)
    ensures k.Some? ==> k.value < |carts| && carts[k.value].id == id
    ensures k.Some? ==> forall j :: 0 <= j < k.value ==> carts[j].id != id
    ensures k.None? ==> forall j :: 0 <= j < |carts| ==> carts[j].id != id
  {
    FirstIndex(carts, (c: Cart) => c.id == id)
  }

  /** The store's answer to an id it cannot cast to an ObjectId: the `catch`
      turns the CastError into 500. */
  const CastError: Reply<Body> := Send(500, Failure("error", "Cast to ObjectId failed"))

  /** The `for...of` loop of `POST /`: the index of the first item whose
      `findById` finds no product (or cannot cast the id), or None when
      every one is found. */
  method FindMissing(items: seq<Item>, catalog: map<Products.ObjectId, Products.Product>)
    returns (k: Option<nat>)
    ensures k.None? ==> forall j :: 0 <= j < |items| ==> Products.ProductExists(catalog, items[j].product)
    ensures k.Some? ==> k.value < |items| && !Products.ProductExists(catalog, items[k.value].product)
    ensures k.Some? ==> forall j :: 0 <= j < k.value ==> Products.ProductExists(catalog, items[j].product)
  {
    var i := 0;
    while i < |items|
      invariant 0 <= i <= |items|
      invariant forall j :: 0 <= j < i ==> Products.ProductExists(catalog, items[j].product)
    {
      if !Products.ProductExists(catalog, items[i].product) {
        return Some(i);
      }
      i := i + 1;
    }
    k := None;
  }

  /** The cart collection. */
  class CartRoutes {
    var carts: seq<Cart>

    /** No two carts share an id. */
    ghost predicate Valid()
      reads this
    {
      forall i, j :: 0 <= i < j < |carts| ==> carts[i].id != carts[j].id
    }

    constructor (carts: seq<Cart>)
      requires forall i, j :: 0 <= i < j < |carts| ==> carts[i].id != carts[j].id
      ensures Valid() && this.carts == carts
    {
      this.carts := carts;
    }

    /** `GET /`: with a limit, 206 and the first min(limit, n) carts in
        collection order (a limit of 0 is sent as the truthy string "0" and
        gives none); without one, 200 and every cart. */
    method List(limit: Option<nat>) returns (r: Reply<Body>)
      ensures limit.None? ==> r == Send(200, CartsObject(carts))
      ensures limit.Some? ==>
        r.Send? && r.code == 206 && r.body.CartArray? &&
        |r.body.carts| == Min(limit.value, |carts|) &&
        r.body.carts == carts[..|r.body.carts|]
    {
      var all := carts;
      match limit
      case Some(n) =>
        r := Send(206, CartArray(all[..Min(n, |all|)]));
      case None =>
        r := Send(200, CartsObject(all));
    }

    /** `GET /:cid`: a cid that is not 24 hex digits is the store's cast
        error, 500; a valid one that no cart has answers 404; otherwise 200
        with that cart. */
    method Get(cid: string) returns (r: Reply<Body>)
      ensures !Products.ValidPid(cid) ==> r == CastError
      ensures Products.ValidPid(cid) && Position(carts, Products.Canonical(cid)).None? ==>
        r == Send(404, Error("The cart with id " + cid + " does not exist"))
      ensures Products.ValidPid(cid) && Position(carts, Products.Canonical(cid)).Some? ==>
        r.Send? && r.code == 200 && r.body.Success? &&
        r.body.payload == carts[Position(carts, Products.Canonical(cid)).value] &&
        r.body.payload.id == Products.Canonical(cid)
    {
      if !Products.ValidPid(cid) {
        return CastError;
      }
      var k := Position(carts, Products.Canonical(cid));
      if k.None? {
        return Send(404, Error("The cart with id " + cid + " does not exist"));
      }
      r := Send(200, Success("success", carts[k.value]));
    }

    /** `PUT /:cid`: a cid that is not 24 hex digits is the store's cast
        error, 500, and nothing changes. Otherwise the cart with that id, if
        any, gets the body as its products; every other cart, and that cart's
        id, stay as they were. */
    method Replace(cid: string, items: seq<Item>) returns (r: Reply<Body>)
      requires Valid()
      modifies this
      ensures Valid()
      ensures !Products.ValidPid(cid) ==> carts == old(carts) && r == CastError
      ensures Products.ValidPid(cid) && Position(old(carts), Products.Canonical(cid)).None? ==>
        carts == old(carts) && r == Send(200, UpdateResult("success", 0))
      ensures Products.ValidPid(cid) && Position(old(carts), Products.Canonical(cid)).Some? ==>
        var k := Position(old(carts), Products.Canonical(cid)).value;
        |carts| == |old(carts)| &&
        carts[k] == Cart(old(carts)[k].id, items) &&
        (forall j :: 0 <= j < |carts| && j != k ==> carts[j] == old(carts)[j]) &&
        r == Send(200, UpdateResult("success", 1))
    {
      if !Products.ValidPid(cid) {
        return CastError;
      }
      var k := Position(carts, Products.Canonical(cid));
      if k.None? {
        return Send(200, UpdateResult("success", 0));
      }
      carts := carts[k.value := Cart(carts[k.value].id, items)];
      r := Send(200, UpdateResult("success", 1));
    }

    /** `POST /`: a truthy `_id` answers 400 first; an absent or empty
        `products` answers 400 next; then the loop stops at the first item
        whose product is not found: a malformed id there is the store's cast
        error, 500, and a valid one is named in a 400. Only when all three
        pass is one cart appended, holding the body's items under the id the
        store generated, and 201 answered. An id already in use is the store's
        duplicate-key error, answered 500. */
    method Create(body: CartBody, catalog: map<Products.ObjectId, Products.Product>,
                  newId: Products.ObjectId) returns (r: Reply<Body>)
      requires Valid()
      modifies this
      ensures Valid()
      ensures Truthy(body.id) ==>
        r == Send(400, Error("Cart already exists")) && carts == old(carts)
      ensures !Truthy(body.id) && (body.products.None? || body.products.value == []) ==>
        r == Send(400, Error("Cart must have at least one product")) && carts == old(carts)
      ensures !Truthy(body.id) && body.products.Some? && body.products.value != [] &&
              (exists j :: 0 <= j < |body.products.value| &&
                 !Products.ProductExists(catalog, body.products.value[j].product)) ==>
        carts == old(carts) &&
        exists k :: 0 <= k < |body.products.value| &&
          !Products.ProductExists(catalog, body.products.value[k].product) &&
          (forall j :: 0 <= j < k ==> Products.ProductExists(catalog, body.products.value[j].product)) &&
          r == if Products.ValidPid(body.products.value[k].product)
               then Send(400, Error("Product " + body.products.value[k].product + " does not exist"))
               else CastError
      ensures !Truthy(body.id) && body.products.Some? && body.products.value != [] &&
              (forall j :: 0 <= j < |body.products.value| ==>
                 Products.ProductExists(catalog, body.products.value[j].product)) ==>
        if Position(old(carts), newId).Some? then
          r.Send? && r.code == 500 && carts == old(carts)
        else
          carts == old(carts) + [Cart(newId, body.products.value)] &&
          r == Send(201, Success("success", Cart(newId, body.products.value)))
    {
      if Truthy(body.id) {
        return Send(400, Error("Cart already exists"));
      }
      if body.products.None? || body.products.value == [] {
        return Send(400, Error("Cart must have at least one product"));
      }
      var items := body.products.value;
      var missing := FindMissing(items, catalog);
      if missing.Some? {
        var id := items[missing.value].product;
        if !Products.ValidPid(id) {
          return CastError;
        }
        return Send(400, Error("Product " + id + " does not exist"));
      }
      if Position(carts, newId).Some? {
        return Send(500, Failure("error", "duplicate key"));
      }
      var cart := Cart(newId, items);
      carts := carts + [cart];
      r := Send(201, Success("success", cart));
    }
  }
}
