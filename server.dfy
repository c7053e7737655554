/** The server: the product store as one mutable object whose methods are the route
    handlers, and the routing that puts the token gate in front of the mutating routes. */
module Server {
  import opened Json
  import opened Http
  import opened Products
  import opened Auth
  import Handlers

  /** A request to one of the product routes, its path parameter and parsed body. */
  datatype Request =
    | ListProducts
    | GetProduct(id: string)
    | CreateProduct(body: Record)
    | UpdateProduct(id: string, body: Record)
    | DeleteProduct(id: string)

  /** Create, update and delete are registered behind `authenticate`. */
  predicate Protected(req: Request) {
    req.CreateProduct? || req.UpdateProduct? || req.DeleteProduct?
  }

  /** A request through the gate and into its handler; `freshId` stands for the `uuidv4()`
      result a create would draw. */
  function Route(s: seq<Record>, authorization: Option<string>, req: Request, freshId: string): (o: Handlers.Outcome)
    ensures Protected(req) && authorization != Some(Token) ==> o == Handlers.Outcome(Unauthorized, s)
    ensures !Protected(req) ==> o.store == s
    ensures o.res == Unauthorized ==> Protected(req) && authorization != Some(Token)
    ensures req.ListProducts? ==> o == Handlers.Outcome(Handlers.List(s), s)
    ensures req.GetProduct? ==> o == Handlers.Outcome(Handlers.Get(s, req.id), s)
    ensures authorization == Some(Token) && req.CreateProduct? ==> o == Handlers.Create(s, req.body, freshId)
    ensures authorization == Some(Token) && req.UpdateProduct? ==> o == Handlers.Update(s, req.id, req.body)
    ensures authorization == Some(Token) && req.DeleteProduct? ==> o == Handlers.Delete(s, req.id)
  {
    if Protected(req) && !Authenticate(authorization) then Handlers.Outcome(Unauthorized, s)
    else
      match req
      case ListProducts => Handlers.Outcome(Handlers.List(s), s)
      case GetProduct(id) => Handlers.Outcome(Handlers.Get(s, id), s)
      case CreateProduct(body) => Handlers.Create(s, body, freshId)
      case UpdateProduct(id, body) => Handlers.Update(s, id, body)
      case DeleteProduct(id) => Handlers.Delete(s, id)
  }

  /** The public routes answer the same whatever the `Authorization` header; a protected
      route answers differently with the token than without any header. */
  lemma GateOnlyGuardsMutations(s: seq<Record>, authorization: Option<string>, req: Request, freshId: string)
    ensures !Protected(req) ==> Route(s, authorization, req, freshId) == Route(s, None, req, freshId)
    ensures Protected(req) ==> Route(s, Some(Token), req, freshId) != Route(s, None, req, freshId)
  {
    if Protected(req) {
      var o := Route(s, Some(Token), req, freshId);
      match req
      case CreateProduct(body) =>
        assert o.res.status != 401;
      case UpdateProduct(id, body) =>
        assert o.res.status != 401;
      case DeleteProduct(id) =>
        assert o.res.status != 401;
    }
  }

  /** The store: the sequence `products` that the handlers read and change in place. */
  class Store {
    var products: seq<Record>

    /** The store as the process starts it, holding the three seed products. */
    constructor ()
      ensures products == Seed()
    {
      products := Seed();
    }

    /** GET /api/products */
    method List() returns (res: Response)
      ensures res == Handlers.List(products)
    {
      res := Handlers.List(products);
    }

    /** GET /api/products/:id */
    method Get(id: string) returns (res: Response)
      ensures res == Handlers.Get(products, id)
    {
      var product := Find(products, id);
      if product.None? {
        return Handlers.NotFound;
      }
      res := OkJson(Obj(product.value));
    }

    /** POST /api/products: validate, then push the new record. */
    method Create(body: Record, freshId: string) returns (res: Response)
      modifies this
      ensures Handlers.Outcome(res, products) == Handlers.Create(old(products), body, freshId)
    {
      var name, price := Property(body, "name"), Property(body, "price");
      if !Truthy(name) || !Truthy(price) {
        return Handlers.BadRequest;
      }
      var newProduct := NewProduct(body, freshId);
      products := products + [newProduct];
      res := Response(201, Obj(newProduct));
    }

    /** PUT /api/products/:id: find the slot, then overwrite it with the merge. */
    method Update(id: string, body: Record) returns (res: Response)
      modifies this
      ensures Handlers.Outcome(res, products) == Handlers.Update(old(products), id, body)
    {
      var productIndex := FindIndex(products, id);
      if productIndex == -1 {
        return Handlers.NotFound;
      }
      var updatedProduct := Merge(products[productIndex], body);
      products := products[productIndex := updatedProduct];
      res := OkJson(Obj(updatedProduct));
    }

    /** DELETE /api/products/:id: find the slot, then splice one record out there. */
    method Delete(id: string) returns (res: Response)
      modifies this
      ensures Handlers.Outcome(res, products) == Handlers.Delete(old(products), id)
    {
      var productIndex := FindIndex(products, id);
      if productIndex == -1 {
        return Handlers.NotFound;
      }
      var deleted := products[productIndex..productIndex + 1];
      products := products[..productIndex] + products[productIndex + 1..];
      res := OkJson(Handlers.DeletedBody(deleted[0]));
    }

    /** One request, dispatched to its handler behind the gate where the route has one. */
    method Handle(authorization: Option<string>, req: Request, freshId: string) returns (res: Response)
      modifies this
      ensures Handlers.Outcome(res, products) == Route(old(products), authorization, req, freshId)
    {
      if Protected(req) && !Authenticate(authorization) {
        return Unauthorized;
      }
      match req
      case ListProducts => res := List();
      case GetProduct(id) => res := Get(id);
      case CreateProduct(body) => res := Create(body, freshId);
      case UpdateProduct(id, body) => res := Update(id, body);
      case DeleteProduct(id) => res := Delete(id);
    }
  }

  /** A client session on a fresh store: three products are listed, product "2" is found,
      a delete without the token is refused and changes nothing, a delete with it succeeds,
      and product "2" is then not found. */
  method SmartphoneSession() returns (listed: Response, got: Response, refused: Response, deleted: Response, after: Response)
    ensures listed.body.Arr? && |listed.body.items| == 3
    ensures got == OkJson(Obj(Seed()[1]))
    ensures refused == Unauthorized
    ensures deleted == OkJson(Handlers.DeletedBody(Seed()[1]))
    ensures after == Handlers.NotFound
  {
    Handlers.SeedScenario();
    var store := new Store();
    listed := store.Handle(None, ListProducts, "");
    assert store.products == Seed();
    got := store.Handle(None, GetProduct("2"), "");
    assert store.products == Seed();
    refused := store.Handle(Some("Bearer wrongtoken"), DeleteProduct("2"), "");
    assert store.products == Seed();
    deleted := store.Handle(Some(Token), DeleteProduct("2"), "");
    assert store.products == Handlers.Delete(Seed(), "2").store;
    after := store.Handle(None, GetProduct("2"), "");
  }
}
