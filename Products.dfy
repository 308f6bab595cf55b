/** The product router: the id format check, the ordered checks of the upload
    form, and update and delete against the product collection, each of which
    broadcasts the whole collection afterwards. */
module Products {
  import opened Http

  const IdLength: nat := 24

  predicate IsHexDigit(c: char)
  {
    '0' <= c <= '9' || 'a' <= c <= 'f' || 'A' <= c <= 'F'
  }

  /** The anchored pattern `[0-9a-fA-F]{n}`, matched one character at a time:
      it accepts exactly the strings of n hex digits. */
  function MatchesHexRun(s: string, n: nat): (r: bool)
    ensures r <==> |s| == n && forall i :: 0 <= i < |s| ==> IsHexDigit(s[i])
  {
    if n == 0 then s == []
    else s != [] && IsHexDigit(s[0]) && MatchesHexRun(s[1..], n - 1)
  }

  /** `pid.match(/^[0-9a-fA-F]{24}$/)` */
  function ValidPid(pid: string): (r: bool)
    ensures r <==> |pid| == IdLength && forall i :: 0 <= i < |pid| ==> IsHexDigit(pid[i])
  {
    MatchesHexRun(pid, IdLength)
  }

  /** An id as the store keeps it: 24 lower-case hex digits. */
  predicate IsObjectId(s: string)
  {
    |s| == IdLength && forall i :: 0 <= i < |s| ==> '0' <= s[i] <= '9' || 'a' <= s[i] <= 'f'
  }

  type ObjectId = s: string | IsObjectId(s) witness "000000000000000000000000"

  function Lower(c: char): char
  {
    if 'A' <= c <= 'F' then (c as int + 32) as char else c
  }

  /** The ObjectId a valid pid is cast to: hex digits are read without regard
      to case, so a pid and its upper-case spelling name the same document. */
  function Canonical(pid: string): (o: ObjectId)
    requires ValidPid(pid)
    ensures |o| == |pid|
    ensures forall i :: 0 <= i < |pid| ==> Lower(o[i]) == Lower(pid[i])
    ensures IsObjectId(pid) ==> o == pid
  {
    seq(|pid|, i requires 0 <= i < |pid| => Lower(pid[i]))
  }

  /** Two valid pids that spell the same digits, ignoring case, address the same document. */
  lemma CanonicalIgnoresCase(a: string, b: string)
    requires ValidPid(a) && ValidPid(b)
    requires forall i :: 0 <= i < IdLength ==> Lower(a[i]) == Lower(b[i])
    ensures Canonical(a) == Canonical(b)
  {
    var ca, cb := Canonical(a), Canonical(b);
    forall i | 0 <= i < IdLength
      ensures ca[i] == cb[i]
    {
      assert Lower(ca[i]) == Lower(a[i]) && ca[i] == Lower(ca[i]);
      assert Lower(cb[i]) == Lower(b[i]) && cb[i] == Lower(cb[i]);
    }
  }

  /** A product document. The form sends every field as a string. */
  datatype Product = Product(title: string, description: string, price: string,
                             thumbnail: string, code: string, stock: string)

  /** The text fields of the `POST /` multipart form. */
  datatype ProductForm = ProductForm(title: Option<string>, description: Option<string>,
                                     price: Option<string>, code: Option<string>,
                                     stock: Option<string>)

  /** The `PUT /:pid` body: the fields it names replace the stored ones. */
  datatype ProductPatch = ProductPatch(title: Option<string>, description: Option<string>,
                                       price: Option<string>, thumbnail: Option<string>,
                                       code: Option<string>, stock: Option<string>)

  /** The field test of `POST /` passes: none of the five fields is absent or
      the empty string. */
  function FormComplete(form: ProductForm): (ok: bool)
    ensures ok <==>
      form.title.Some? && form.title.value != "" &&
      form.description.Some? && form.description.value != "" &&
      form.price.Some? && form.price.value != "" &&
      form.code.Some? && form.code.value != "" &&
      form.stock.Some? && form.stock.value != ""
  {
    Truthy(form.title) && Truthy(form.description) && Truthy(form.price) &&
    Truthy(form.code) && Truthy(form.stock)
  }

  function Or(f: Option<string>, current: string): string
  {
    if f.Some? then f.value else current
  }

  /** The document `findOneAndUpdate(.., req.body, { new: true })` returns:
      each field the body names is taken from it, the rest are kept. */
  function Apply(p: Product, patch: ProductPatch): (q: Product)
    ensures patch == ProductPatch(None, None, None, None, None, None) ==> q == p
    ensures q.title == (if patch.title.Some? then patch.title.value else p.title)
    ensures q.description == (if patch.description.Some? then patch.description.value else p.description)
    ensures q.price == (if patch.price.Some? then patch.price.value else p.price)
    ensures q.thumbnail == (if patch.thumbnail.Some? then patch.thumbnail.value else p.thumbnail)
    ensures q.code == (if patch.code.Some? then patch.code.value else p.code)
    ensures q.stock == (if patch.stock.Some? then patch.stock.value else p.stock)
  {
    Product(Or(patch.title, p.title), Or(patch.description, p.description),
            Or(patch.price, p.price), Or(patch.thumbnail, p.thumbnail),
            Or(patch.code, p.code), Or(patch.stock, p.stock))
  }

  /** Sending the same update twice stores what sending it once does. */
  lemma ApplyIdempotent(p: Product, patch: ProductPatch)
    ensures Apply(Apply(p, patch), patch) == Apply(p, patch)
  {
  }

  /** Whether `findById(id)` on the collection finds a document: never for a
      malformed id, and for a valid one exactly when the id it is cast to is
      stored, whatever the case of its letters. */
  function ProductExists(products: map<ObjectId, Product>, id: string): (e: bool)
    ensures !ValidPid(id) ==> !e
    ensures IsObjectId(id) ==> (e <==> id in products)
    ensures ValidPid(id) ==> (e <==> Canonical(id) in products)
  {
    ValidPid(id) && Canonical(id) in products
  }

  /** The `updatedProducts` message on the broadcast channel. */
  datatype Event = Event(topic: string, products: map<ObjectId, Product>)

  const UpdatedProducts := "updatedProducts"

  datatype Body =
    | Message(status: string, data: string)                   // { status, data } as text
    | Created(status: string, id: ObjectId, product: Product)  // { status: 'OK', data: result }
    | Catalog(status: string, products: map<ObjectId, Product>)
    | Failure(status: string, error: string)                  // { status: 'error', error }
    | NotFound(error: string)                                 // { error } of PUT
    | Updated(message: string)
    | Removed(message: string, products: map<ObjectId, Product>)

  const BadPid: Reply<Body> := Send(400, Failure("error", "Invalid product ID format"))

  /** The product collection and the broadcast channel's log. */
  class ProductRoutes {
    var products: map<ObjectId, Product>
    var emitted: seq<Event>

    constructor (products: map<ObjectId, Product>)
      ensures this.products == products && emitted == []
    {
      this.products := products;
      emitted := [];
    }

    /** `GET /`: the whole collection. */
    method List() returns (r: Reply<Body>)
      ensures r == Send(200, Catalog("OK", products))
    {
      r := Send(200, Catalog("OK", products));
    }

    /** `POST /`: no file answers 400 `FIL` before anything else is looked at;
        a missing field answers 400 `ERR`; otherwise one product is added under
        the id the store generated, its five text fields from the form and its
        thumbnail the uploaded file's name. An id already in use is the
        store's duplicate-key error, answered 500. Nothing is broadcast. */
    method Create(file: Option<string>, form: ProductForm, newId: ObjectId) returns (r: Reply<Body>)
      modifies this
      ensures emitted == old(emitted)
      ensures file.None? ==>
        r == Send(400, Message("FIL", "No se pudo subir el archivo")) && products == old(products)
      ensures file.Some? && !FormComplete(form) ==>
        r == Send(400, Message("ERR", "Faltan campos obligatorios")) && products == old(products)
      ensures file.Some? && FormComplete(form) && newId in old(products) ==>
        r.Send? && r.code == 500 && products == old(products)
      ensures file.Some? && FormComplete(form) && newId !in old(products) ==>
        var p := Product(form.title.value, form.description.value, form.price.value,
                         file.value, form.code.value, form.stock.value);
        products == old(products)[newId := p] && r == Send(200, Created("OK", newId, p))
    {
      if file.None? {
        return Send(400, Message("FIL", "No se pudo subir el archivo"));
      }
      if !FormComplete(form) {
        return Send(400, Message("ERR", "Faltan campos obligatorios"));
      }
      if newId in products {
        return Send(500, Message("ERR", "duplicate key"));
      }
      var p := Product(form.title.value, form.description.value, form.price.value,
                       file.value, form.code.value, form.stock.value);
      products := products[newId := p];
      r := Send(200, Created("OK", newId, p));
    }

    /** `PUT /:pid`: a malformed pid answers 400 and a missing product 404, both
        without touching the store or the channel; otherwise that product, and
        no other, takes the body's fields, and the whole updated collection is
        broadcast once. */
    method Update(pid: string, patch: ProductPatch) returns (r: Reply<Body>)
      modifies this
      ensures !ValidPid(pid) ==>
        r == BadPid && products == old(products) && emitted == old(emitted)
      ensures ValidPid(pid) && Canonical(pid) !in old(products) ==>
        r == Send(404, NotFound("The product does not exist")) &&
        products == old(products) && emitted == old(emitted)
      ensures ValidPid(pid) && Canonical(pid) in old(products) ==>
        var id := Canonical(pid);
        var updated := Apply(old(products)[id], patch);
        products.Keys == old(products).Keys &&
        products[id] == updated &&
        (forall k :: k in old(products) && k != id ==> products[k] == old(products)[k]) &&
        emitted == old(emitted) + [Event(UpdatedProducts, products)] &&
        r == Send(200, Updated("Updating the product: " + updated.title))
    {
      if !ValidPid(pid) {
        return BadPid;
      }
      var id := Canonical(pid);
      if id !in products {
        return Send(404, NotFound("The product does not exist"));
      }
      var updated := Apply(products[id], patch);
      products := products[id := updated];
      var all := products;
      emitted := emitted + [Event(UpdatedProducts, all)];
      r := Send(200, Updated("Updating the product: " + updated.title));
    }

    /** `DELETE /:pid`: a malformed pid answers 400 and a missing product 404,
        both without touching the store or the channel; otherwise exactly that
        product is removed, and the remaining collection is both broadcast once
        and returned in the answer. */
    method Delete(pid: string) returns (r: Reply<Body>)
      modifies this
      ensures !ValidPid(pid) ==>
        r == BadPid && products == old(products) && emitted == old(emitted)
      ensures ValidPid(pid) && Canonical(pid) !in old(products) ==>
        r == Send(404, Failure("error", "No such product with id: " + pid)) &&
        products == old(products) && emitted == old(emitted)
      ensures ValidPid(pid) && Canonical(pid) in old(products) ==>
        products == old(products) - {Canonical(pid)} &&
        !ProductExists(products, pid) &&
        emitted == old(emitted) + [Event(UpdatedProducts, products)] &&
        r == Send(200, Removed("Product with id " + pid + " removed successfully", products))
    {
      if !ValidPid(pid) {
        return BadPid;
      }
      var id := Canonical(pid);
      if id !in products {
        return Send(404, Failure("error", "No such product with id: " + pid));
      }
      products := products - {id};
      var all := products;
      emitted := emitted + [Event(UpdatedProducts, all)];
      r := Send(200, Removed("Product with id " + pid + " removed successfully", all));
    }
  }
}
