# Request-decision logic of an Express shop backend

This project models what the route handlers of a small e-commerce backend decide.
The backend is built on Express, Passport, Mongoose, Multer and Socket.io. Each
handler is modelled as one sequential step over explicit inputs: the session, the
path id, the request body, and the collections it reads or writes. Each step
ends in an HTTP reply, which is either a status code with a body or a redirect.
Where the handler changes something, the step also updates a collection or
appends to the broadcast log.

- `Http.dfy`: `Option`, JavaScript truthiness of a request field (`Truthy`: present and not the empty string), `Reply` (`Send(code, body)` or `Redirect(location)`), and `FirstIndex`, the first element of a collection that a filter matches.
- `Sessions.dfy` (`src/routes/sessions.routes.js`):
  - `Guard` is the `auth` middleware.
  - `AdminRoute` is `/admin` behind that guard.
  - The class `SessionRoutes` holds `req.session.user` and the user collection. Its methods are the transitions of the root redirect, logout and the GitHub callback.
  - Small functions model `/current`, and the login and register handlers with their failure endpoints.
- `Products.dfy` (`src/routes/products.routes.js`):
  - `ValidPid` models the regular expression `^[0-9a-fA-F]{24}$`. `MatchesHexRun` is the character-by-character matcher behind it.
  - Store ids have the type `ObjectId`: 24 lower-case hex digits. A valid pid reaches the store through `Canonical`, because Mongo reads an ObjectId's hex digits without regard to case.
  - The class `ProductRoutes` holds the product collection, a `map<ObjectId, Product>`, and the log of `updatedProducts` broadcasts. Its methods are `GET /`, `POST /`, `PUT /:pid` and `DELETE /:pid`.
- `Carts.dfy` (`src/routes/carts.routes.js`):
  - The class `CartRoutes` holds the cart collection as a `seq<Cart>` in store order. `Valid()` says no two carts share an id.
  - The `for...of` loop of `POST /` is the method `FindMissing`, a `while` loop whose invariant is "no missing product before index i".

Inputs the handlers get from outside are parameters:
- the outcome of a Passport strategy (`Some(user)` or `None`);
- whether `User.find()` or the callback's `findOneAndUpdate` fails;
- the error of `session.destroy`;
- the uploaded file's name;
- the id the store generates for a new document (one already in use stands for the store's duplicate-key error, which the handler answers with 500).

Notes on the source. In each case the model follows what the code does:
- The comment at `src/routes/products.routes.js:40-41` announces a socket.io event after a product is created. Line 42 fetches `socketServer` but never emits, so the model logs no event for `POST /`.
- The comment at `src/routes/sessions.routes.js:33-37` describes a per-session visit counter. The handler at lines 38-54 has no counter; it only redirects.
- `/current` reads the user Passport attached to the request, not `req.session.user`.
- `POST /` of products reads `req.app.get('socketServer')` (line 42), while `PUT` and `DELETE` emit on `req.app.get('socketio')` (lines 66 and 90). `app.js` is not part of this model, so which key it registers is not known here. If it registers only `socketServer`, `PUT` and `DELETE` change the store and then fail before emitting. The model assumes the `socketio` key is registered.

## Model

| member | source | states |
|---|---|---|
| `Sessions.Guard` | src/routes/sessions.routes.js:17-31 | exactly one of three outcomes: 401 iff there is no session user, 403 iff there is one whose rol is not "ADMIN", `next()` iff its rol is "ADMIN" |
| `Sessions.GuardDependsOnlyOnRol` | src/routes/sessions.routes.js:19-20 | two sessions that agree on whether a user is present and on that user's rol get the same guard outcome |
| `Sessions.AdminRoute` | src/routes/sessions.routes.js:81-87 | `/admin` answers 200 with the private data exactly when the guard continues; with no session user it answers 401 and with a non-admin 403, so the handler does not run |
| `Sessions.FindByEmail` | src/routes/sessions.routes.js:104-105 | the result is the first document whose email matches, or None when no document has that email |
| `Sessions.Promote` | src/routes/sessions.routes.js:104-108 | the update sets rol "ADMIN" on the first document with that email and changes nothing else; with no match the collection is unchanged |
| `Sessions.PromoteIdempotent` | src/routes/sessions.routes.js:104-108 | promoting the same email twice leaves the collection as promoting it once |
| `Sessions.PromotedUserIsAdmin` | src/routes/sessions.routes.js:104-108 | after the update the same document is still the first match for the email, and its rol is "ADMIN" |
| `Sessions.Current` | src/routes/sessions.routes.js:123-133 | 200 carrying exactly the request's user when there is one, otherwise a redirect to `/login` |
| `Sessions.LoginRoute` | src/routes/sessions.routes.js:136-142 | a failed login strategy redirects to `/api/sessions/failauth`, a successful one to `/api/sessions/current` |
| `Sessions.RegisterRoute` | src/routes/sessions.routes.js:145-151 | a failed register strategy redirects to `/api/sessions/failregister`, a successful one answers 200 "OK" |
| `Sessions.FailRegister` | src/routes/sessions.routes.js:90-92 | always 400 with status "ERR" |
| `Sessions.FailAuth` | src/routes/sessions.routes.js:94-96 | always 400 with status "ERR" |
| `Sessions.SessionRoutes.Root` | src/routes/sessions.routes.js:38-54 | redirects to `/register` when no user exists and to `/login` otherwise; a failing lookup answers 500 |
| `Sessions.SessionRoutes.Logout` | src/routes/sessions.routes.js:56-74 | a destroy error answers 500 with its message and keeps the session; otherwise the session user is cleared, the answer is a redirect to `/login`, and the guard then answers 401; the user collection never changes |
| `Sessions.SessionRoutes.GithubCallback` | src/routes/sessions.routes.js:101-121 | on success the first user with the caller's email becomes ADMIN, the session holds `{email, rol: "ADMIN"}`, the guard then continues and `/admin` answers 200, and the answer redirects to `/profile`; a failed strategy or a failed store update leaves the session and the collection unchanged and redirects to `/login` |
| `Products.MatchesHexRun` | src/routes/products.routes.js:55 | the anchored `[0-9a-fA-F]{n}` matcher accepts a string iff it has length n and every character is a hex digit of either case |
| `Products.ValidPid` | src/routes/products.routes.js:55 | the pid check (also at line 79) holds iff the pid has exactly 24 characters, each in [0-9a-fA-F] |
| `Products.Canonical` | src/routes/products.routes.js:59 | the stored id a valid pid addresses has the same digits ignoring case, and is the pid itself when the pid is already lower case |
| `Products.CanonicalIgnoresCase` | src/routes/products.routes.js:59 | two valid pids that differ only in the case of their letters address the same product |
| `Products.FormComplete` | src/routes/products.routes.js:23 | the field test passes iff each of title, description, price, code and stock is present and not the empty string |
| `Products.Apply` | src/routes/products.routes.js:59 | the updated product takes each field the body names and keeps every other field; an empty body changes nothing |
| `Products.ApplyIdempotent` | src/routes/products.routes.js:59 | applying the same update body twice gives what applying it once gives |
| `Products.ProductRoutes.List` | src/routes/products.routes.js:9-16 | 200 with the whole product collection |
| `Products.ProductRoutes.Create` | src/routes/products.routes.js:18-48 | no file gives 400 "FIL" before any field is checked; a missing or empty field gives 400 "ERR" and adds nothing; otherwise exactly one product is added, its five fields from the form and its thumbnail the uploaded filename, and the answer is 200 with it; nothing is ever broadcast |
| `Products.ProductRoutes.Update` | src/routes/products.routes.js:50-72 | a malformed pid gives 400 and an unknown one 404, both without changing the store or the log; otherwise only that product changes, to the body's fields, the keys stay the same, exactly one `updatedProducts` event carrying the whole updated collection is logged, and the answer names the new title |
| `Products.ProductRoutes.Delete` | src/routes/products.routes.js:74-96 | a malformed pid gives 400 and an unknown one 404, both without changing the store or the log; otherwise exactly that id is removed and no longer found, and the one logged event and the answer both carry the post-delete collection |
| `Products.ProductExists` | src/routes/carts.routes.js:61-62 | `findById` finds nothing for a malformed id; for a valid id it finds a product iff the id, read without regard to case, is stored; a stored id is found iff it is a key |
| `Carts.Position` | src/routes/carts.routes.js:28 | the index of the first cart with that id, or None when no cart has it |
| `Carts.FindMissing` | src/routes/carts.routes.js:60-65 | None iff every item's product is found; otherwise the index of the first item whose product is not found, with every earlier one found |
| `Carts.CartRoutes.List` | src/routes/carts.routes.js:8-23 | with a limit, 206 with the first min(limit, n) carts in store order; without one, 200 with all carts |
| `Carts.CartRoutes.Get` | src/routes/carts.routes.js:25-36 | a cid that is not 24 hex digits answers 500, the store's cast error; a valid id no cart has answers 404; otherwise 200 with the cart of that id |
| `Carts.CartRoutes.Replace` | src/routes/carts.routes.js:38-46 | a malformed cid answers 500 and changes nothing; otherwise only the addressed cart's products are replaced by the body, and its id and every other cart stay the same; with no match nothing changes; ids stay distinct |
| `Carts.CartRoutes.Create` | src/routes/carts.routes.js:48-72 | a truthy `_id` gives 400 first; then an absent or empty `products` gives 400; then the loop stops at the first item whose product is not found, answering 500 if its id is malformed and otherwise a 400 that names it; each of these creates nothing; otherwise exactly one cart holding the body's items is appended and 201 is answered; ids stay distinct |

## Left out

- Passport strategies (`loginAuth`, `registerAuth`, `githubAuth`): `src/config/passport.config.js` is not part of this model. Their results are inputs: an identity, or a failure that the handlers redirect.
- `GET /api/sessions/github` (lines 98-99): its handler is empty, and the redirect to GitHub is done by Passport.
- Mongoose, `populate`, Multer and Socket.io are foreign libraries. The collections are values in fields, the upload is its filename, and `emit` appends to a log. Delivery is not modelled.
- The product collection is a map. The order in which `find()` lists products is not modelled.
- `Products.ProductRoutes.Update`, `Products.ProductRoutes.Delete`, `Carts.CartRoutes.Create`, `Carts.FindMissing`: `productModel` is used in `src/routes/products.routes.js` (lines 59, 65, 83, 89) and in `src/routes/carts.routes.js` (line 61), but neither file imports it. As written, `PUT /:pid` and `DELETE /:pid` raise a ReferenceError once the pid check passes, and `POST /` of carts raises one once its `_id` and `products` checks pass. The `catch` of each answers 500. The model gives the intended store access instead.
- `Products.ProductRoutes.List`, `Products.ProductRoutes.Create`, `Carts.CartRoutes.List`: `getProducts`, `addProduct` and `getCarts` belong to controllers in `src/controllers/`, which are not part of this model. The model assumes they read or insert into the same collections that `productModel` and `cartModel` use. It also assumes that `getProducts` returns the whole collection, `getCarts` returns the carts in store order, and `addProduct` returns the new document.
- Async execution and the callback of `session.destroy`: each handler is one sequential step.
- Catch-all 500 branches for JavaScript exceptions are not modelled. The exceptions are the store and session failures named above, which are inputs, and a duplicate generated id.
- Mongoose cast errors are modelled only for ids: an id that is not 24 hex digits answers 500. A 12-character string, which some versions of the ObjectId type accept as raw bytes, is treated as malformed. A body that fails schema validation, which the handlers would also answer with 500, is not modelled.
- Request fields are either absent or a string, as a multipart form sends them. JSON values of other types and fields outside the product schema are not modelled.
- `Carts.CartRoutes.List`: negative or non-numeric `limit` strings are not modelled. The limit is `Option<nat>`, and `"0"` is truthy, so it gives 206 with no carts.
- `Carts.CartRoutes.Replace`: the update result is reduced to its matched count.
- JSON serialization and redirect rendering are not modelled. Only the status code, the target path and the body's contents are.
- `src/config.js` only loads environment variables.
