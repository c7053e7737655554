# Product API store, modelled in Dafny

The Express server in `server.js` keeps its products in one module-level array. It is
seeded with three records: ids "1", "2" and "3". The route handlers read and change that
array:

- get-by-id returns the first record whose `id` is strictly equal to the path parameter;
- create checks that `name` and `price` are truthy, then pushes a record with a fresh
  `uuidv4()` id and five body fields;
- update replaces the first matching slot with the spread `{ ...old, ...body }`;
- delete splices the first matching record out and returns it.

An `authenticate` middleware lets a request through only when its `Authorization` header
is `Bearer mysecrettoken`.

The model has six modules:

- `Json` (json.dfy): the values a handler sees (`undefined` included), records as
  `map<string, Value>`, and JavaScript truthiness.
- `Http` (http.dfy): a response as a status and a JSON body.
- `Products` (products.dfy): the id match, `findIndex` and `find` as recursive functions,
  the record built by create, the spread merge (map union, body winning) and the seed.
- `Handlers` (handlers.dfy): each handler body as a function from the store before the
  request to an `Outcome`, which is the response plus the store after it. The lemmas about
  the handlers are here too.
- `Auth` (auth.dfy): `authenticate`.
- `Server` (server.dfy): the store as a class `Store` whose field `products` the methods
  change in place (push, indexed assignment, splice). Each method is proved to produce
  exactly the `Outcome` of its handler function. `Route` and `Store.Handle` put the token
  gate in front of create, update and delete. `SmartphoneSession` is a client that walks
  through the seed scenario on a fresh store.

Update does not protect `id`: a body that carries an `id` overwrites it, so ids can stop
being unique (`UpdateMayDuplicateIds`). Get, update and delete then act on the first
match only. The uniqueness lemmas therefore exclude an `id` in the update body.

Create only checks that `name` and `price` are truthy, so a `name` of `true` or `5` is
accepted.

The code registers create, update and delete twice: first as empty stubs behind
`authenticate` (server.js:36-44), then as the real bodies without it. `Route` models the
composition those registrations evidently intend: the gate, then the real body.

## Model

| member | source | states |
|---|---|---|
| `Products.FindIndex` | server.js:125 | `findIndex` gives -1 exactly when no record carries the id, and otherwise the first position whose record carries it |
| `Products.FirstMatchIsFound` | server.js:140 | the first matching position is unique, so it is the one `findIndex` returns |
| `Products.Find` | server.js:94 | `find` gives nothing exactly when no record carries the id, and otherwise the record at the first match |
| `Products.FindAgreesWithFindIndex` | server.js:93-99 | `find` returns the record at the position `findIndex` returns, and nothing when that is -1 |
| `Products.NewProduct` | server.js:109-116 | the created record has exactly the keys `id`, `name`, `description`, `price`, `category` and `inStock`; its `id` is the generated one; each other key holds the body's value, or `undefined` when the body lacks it |
| `Products.Merge` | server.js:131 | the spread has the keys of both records; a key in the body takes the body's value and any other key keeps the old value |
| `Products.MergeIdempotent` | server.js:131 | merging the same body a second time changes nothing |
| `Products.MergeKeepsId` | server.js:131 | a body without an `id` key does not change which id the record matches |
| `Products.Seed` | server.js:48-73 | the store starts with three records with ids "1", "2" and "3", in that order, and distinct ids |
| `Handlers.List` | server.js:88-90 | listing answers 200 with every record, in store order |
| `Handlers.Get` | server.js:93-99 | get answers 404 `{error: "Product not found"}` when no record carries the id, and otherwise 200 with the first record that does |
| `Handlers.Create` | server.js:103-119 | a falsy `name` or `price` answers 400 `{error: "Name and price are required"}` and leaves the store as it was; otherwise the new record is appended after the untouched old records and answered with 201 |
| `Handlers.Update` | server.js:123-134 | an unknown id answers 404 and leaves the store as it was; otherwise only the first matching slot is replaced by its merge with the body, and the merge is answered with 200 |
| `Handlers.Delete` | server.js:138-148 | an unknown id answers 404 and leaves the store as it was; otherwise the first match is spliced out and answered as `{message: "Product deleted", deleted: [record]}` |
| `Handlers.CreateRejectsMissingFields` | server.js:104-107 | a missing, empty, null or false name, or a missing, zero, empty, null or false price, answers 400 and leaves the store as it was |
| `Handlers.CreateAcceptsNamedPricedBody` | server.js:104-107 | a non-empty string name with a non-zero price is accepted with 201 |
| `Handlers.CreateCopiesOnlyBodyFields` | server.js:104-116 | two bodies that agree on the five copied fields create the same outcome, so an `id` or any other key in the body is ignored; the record has exactly the six keys and the generated id |
| `Handlers.CreateThenGet` | server.js:109-118 | with an id not yet in the store, a get of the generated id then answers the created record |
| `Handlers.CreatePreservesUniqueIds` | server.js:109-117 | with an id not yet in the store, create keeps the store's ids distinct |
| `Handlers.CreateThenDelete` | server.js:138-148 | deleting a freshly created product by its id restores the store exactly and answers that product |
| `Handlers.UpdateChangesOnlyFirstMatch` | server.js:125-133 | the length stays the same and every slot but the first match is unchanged; in that slot the body's keys (`id` included) take the body's values and every other key keeps its value |
| `Handlers.UpdateThenGet` | server.js:131-132 | after an update whose body has no `id`, a get of the same id answers the merged record |
| `Handlers.UpdateIdempotent` | server.js:131-132 | repeating an update whose body has no `id` gives the same response and store |
| `Handlers.UpdatePreservesUniqueIds` | server.js:131-132 | an update whose body has no `id` keeps the ids distinct |
| `Handlers.UpdateMayDuplicateIds` | server.js:131 | on the seed store, updating "1" with body `{id: "2"}` leaves two records with id "2", and a get of "2" then answers the updated laptop, not the smartphone |
| `Handlers.DeleteRemovesFirstMatch` | server.js:140-147 | delete leaves one record fewer; the records before the first match and those after it keep their order; the answer's `deleted` holds the removed record |
| `Handlers.DeleteThenGet` | server.js:146 | with distinct ids, after a successful delete of an id a get of that id answers 404 |
| `Handlers.DeletePreservesUniqueIds` | server.js:146 | delete keeps distinct ids distinct |
| `Handlers.SeedScenario` | server.js:48-73 | on the seed store, the list has 3 records and get "2" answers the smartphone; delete "2" answers the smartphone and leaves 2 records, after which get "2" answers 404 |
| `Auth.Authenticate` | server.js:22-28 | a request passes exactly when its `Authorization` header is present and equal to `Bearer mysecrettoken` |
| `Server.Route` | server.js:22-44 | a create, update or delete without the token answers 401 `{error: "Unauthorized access"}` and leaves the store as it was; with the token it gets exactly its handler's outcome (the `next()` of the gate); list and get always get their handler's outcome and never change the store; a 401 comes only from the gate |
| `Server.GateOnlyGuardsMutations` | server.js:31-44 | list and get answer the same whatever the header; for create, update and delete the token changes the outcome |
| `Server.Store.constructor` | server.js:48-73 | a new store holds the seed records |
| `Server.Store.List` | server.js:88-90 | listing answers as `Handlers.List` on the current products |
| `Server.Store.Get` | server.js:93-99 | get-by-id answers as `Handlers.Get` on the current products and changes nothing |
| `Server.Store.Create` | server.js:103-119 | validating and then pushing gives exactly the response and new products of `Handlers.Create` |
| `Server.Store.Update` | server.js:123-134 | the indexed assignment gives exactly the response and new products of `Handlers.Update` |
| `Server.Store.Delete` | server.js:138-148 | the splice gives exactly the response and new products of `Handlers.Delete` |
| `Server.Store.Handle` | server.js:36-44 | a request through the gate and its handler gives exactly the response and new products of `Route` |
| `Server.SmartphoneSession` | server.js:48-73 | on a fresh store: the list has three products; get "2" answers the smartphone; a delete with a wrong token answers 401; a delete with the token answers the smartphone; get "2" then answers 404 |

## Left out

- Express plumbing is not modelled: `express()`, `bodyParser.json()`, `app.listen`, the port and `module.exports`. These are framework I/O.
- The request-logging middleware is not modelled. It only prints a line stamped with the wall clock.
- The error-handling middleware is not modelled. It only reacts to exceptions raised by the framework and logs to the console. The modelled handler bodies raise none.
- The root welcome route is not modelled. It returns a constant string.
- `uuidv4()` is not modelled. The generated id is the parameter `freshId`. The lemmas that need it to be new assume it matches no record in the store.
- Express's route dispatch is not modelled. At run time the stub registrations at server.js:36-44 match first and never respond, which shadows the real bodies. The model treats each handler body, and the gate in front of it, as its own operation.
- JSON serialisation is not modelled. Keys holding `undefined` (the missing create fields) are dropped when a response is written, and key order is not kept, because records are maps.
- Numbers are integers. Fractional and out-of-range numbers are not modelled: JSON `1e-400` parses to 0 (falsy) and `1e400` to Infinity (truthy), and neither value exists here. A JSON `-0` is the integer 0 here, falsy as in JavaScript.
- A request body that is a JSON array rather than an object is not modelled. Bodies are records.
- Repeated `Authorization` headers are not modelled. The header is a single optional string.
