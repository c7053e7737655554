/** The bodies of the product route handlers, each as a function from the store before the
    request to the response it sends and the store it leaves behind. */
module Handlers {
  import opened Json
  import opened Http
  import opened Products

  /** What a handler produces: the response and the store after the request. */
  datatype Outcome = Outcome(res: Response, store: seq<Record>)

  const NotFound := Response(404, ErrorBody("Product not found"))
  const BadRequest := Response(400, ErrorBody("Name and price are required"))

  /** The delete answer `{ message, deleted }`, `deleted` being what `splice` returned. */
  function DeletedBody(removed: Record): Value {
    Obj(map["message" := Str("Product deleted"), "deleted" := Arr([Obj(removed)])])
  }

  /** GET /api/products: every product, in store order. */
  function List(s: seq<Record>): (res: Response)
    ensures res.status == 200 && res.body.Arr? && |res.body.items| == |s|
    ensures forall k :: 0 <= k < |s| ==> res.body.items[k] == Obj(s[k])
  {
    OkJson(Arr(seq(|s|, k requires 0 <= k < |s| => Obj(s[k]))))
  }

  /** GET /api/products/:id: the first product carrying the id, or 404. */
  function Get(s: seq<Record>, id: string): (res: Response)
    ensures NoMatch(s, id) ==> res == NotFound
    ensures forall i :: FirstMatch(s, id, i) ==> res == OkJson(Obj(s[i]))
  {
    match Find(s, id)
    case None => NotFound
    case Some(p) => OkJson(Obj(p))
  }

  /** POST /api/products with `freshId` standing for the `uuidv4()` result. */
  function Create(s: seq<Record>, body: Record, freshId: string): (o: Outcome)
    ensures !CreateAccepts(body) ==> o == Outcome(BadRequest, s)
    ensures CreateAccepts(body) ==>
      && |o.store| == |s| + 1
      && o.store[..|s|] == s
      && o.store[|s|] == NewProduct(body, freshId)
      && o.res == Response(201, Obj(o.store[|s|]))
  {
    if !CreateAccepts(body) then Outcome(BadRequest, s)
    else
      var p := NewProduct(body, freshId);
      Outcome(Response(201, Obj(p)), s + [p])
  }

  /** PUT /api/products/:id: the first product carrying the id is replaced by its merge
      with the body. */
  function Update(s: seq<Record>, id: string, body: Record): (o: Outcome)
    ensures NoMatch(s, id) ==> o == Outcome(NotFound, s)
    ensures forall i :: FirstMatch(s, id, i) ==>
      o == Outcome(OkJson(Obj(Merge(s[i], body))), s[i := Merge(s[i], body)])
  {
    var i := FindIndex(s, id);
    if i == -1 then Outcome(NotFound, s)
    else
      var m := Merge(s[i], body);
      Outcome(OkJson(Obj(m)), s[i := m])
  }

  /** DELETE /api/products/:id: the first product carrying the id is spliced out. */
  function Delete(s: seq<Record>, id: string): (o: Outcome)
    ensures NoMatch(s, id) ==> o == Outcome(NotFound, s)
    ensures forall i :: FirstMatch(s, id, i) ==>
      o == Outcome(OkJson(DeletedBody(s[i])), s[..i] + s[i + 1..])
  {
    var i := FindIndex(s, id);
    if i == -1 then Outcome(NotFound, s)
    else Outcome(OkJson(DeletedBody(s[i])), s[..i] + s[i + 1..])
  }

  // ---------------------------------------------------------------------------
  // Create

  /** A missing or empty name, or a missing, zero or empty price, is rejected. */
  lemma CreateRejectsMissingFields(s: seq<Record>, body: Record, freshId: string)
    requires || "name" !in body || body["name"] in {Str(""), Null, Bool(false)}
             || "price" !in body || body["price"] in {Num(0), Str(""), Null, Bool(false)}
    ensures Create(s, body, freshId) == Outcome(BadRequest, s)
  {
  }

  /** A non-empty name string with a non-zero price is accepted. */
  lemma CreateAcceptsNamedPricedBody(s: seq<Record>, body: Record, freshId: string, name: string, price: int)
    requires "name" in body && body["name"] == Str(name) && name != ""
    requires "price" in body && body["price"] == Num(price) && price != 0
    ensures Create(s, body, freshId).res.status == 201
  {
  }

  /** The created record holds exactly the generated id and the five body fields: an `id`
      or any other key in the body has no effect. */
  lemma CreateCopiesOnlyBodyFields(s: seq<Record>, body: Record, other: Record, freshId: string)
    requires forall k :: k in BodyFields ==> Property(body, k) == Property(other, k)
    ensures Create(s, body, freshId) == Create(s, other, freshId)
    ensures CreateAccepts(body) ==>
      var p := Create(s, body, freshId).store[|s|];
      p.Keys == BodyFields + {"id"} && p["id"] == Str(freshId)
  {
    assert "name" in BodyFields && "price" in BodyFields;
    assert NewProduct(body, freshId) == NewProduct(other, freshId);
  }

  /** With a fresh id, the created product is what a later get of that id answers. */
  lemma CreateThenGet(s: seq<Record>, body: Record, freshId: string)
    requires NoMatch(s, freshId) && CreateAccepts(body)
    ensures Get(Create(s, body, freshId).store, freshId) == OkJson(Obj(NewProduct(body, freshId)))
  {
    var t := Create(s, body, freshId).store;
    assert t[..|s|] == s;
    assert FirstMatch(t, freshId, |s|);
  }

  /** With a fresh id, create keeps the ids unique. */
  lemma CreatePreservesUniqueIds(s: seq<Record>, body: Record, freshId: string)
    requires UniqueIds(s) && NoMatch(s, freshId)
    ensures UniqueIds(Create(s, body, freshId).store)
  {
    var t := Create(s, body, freshId).store;
    if CreateAccepts(body) {
      forall i, j | 0 <= i < j < |t| && "id" in t[i] && "id" in t[j]
        ensures t[i]["id"] != t[j]["id"]
      {
        if j == |s| {
          assert t[i] == s[i] && !IdMatches(s[i], freshId);
        } else {
          assert t[i] == s[i] && t[j] == s[j];
        }
      }
    }
  }

  /** Deleting a freshly created product by its id restores the store and hands the
      product back. */
  lemma CreateThenDelete(s: seq<Record>, body: Record, freshId: string)
    requires NoMatch(s, freshId) && CreateAccepts(body)
    ensures Delete(Create(s, body, freshId).store, freshId)
         == Outcome(OkJson(DeletedBody(NewProduct(body, freshId))), s)
  {
    var t := Create(s, body, freshId).store;
    assert t[..|s|] == s;
    assert FirstMatch(t, freshId, |s|);
    assert t[..|s|] + t[|s| + 1..] == s;
  }

  // ---------------------------------------------------------------------------
  // Update

  /** Update touches only the slot of the first match: the body's keys take the body's
      values (`id` included), every other key keeps its value, every other slot stays. */
  lemma UpdateChangesOnlyFirstMatch(s: seq<Record>, id: string, body: Record, i: int)
    requires FirstMatch(s, id, i)
    ensures var t := Update(s, id, body).store;
      && |t| == |s|
      && (forall j :: 0 <= j < |s| && j != i ==> t[j] == s[j])
      && t[i].Keys == s[i].Keys + body.Keys
      && (forall k :: k in body ==> t[i][k] == body[k])
      && (forall k :: k in s[i] && k !in body ==> t[i][k] == s[i][k])
  {
  }

  /** An update whose body carries no `id` is seen by a later get of the same id. */
  lemma UpdateThenGet(s: seq<Record>, id: string, body: Record, i: int)
    requires FirstMatch(s, id, i) && "id" !in body
    ensures Get(Update(s, id, body).store, id) == OkJson(Obj(Merge(s[i], body)))
  {
    var t := Update(s, id, body).store;
    assert t[..i] == s[..i];
    MergeKeepsId(s[i], body, id);
    assert FirstMatch(t, id, i);
  }

  /** Repeating an update whose body carries no `id` changes nothing further. */
  lemma UpdateIdempotent(s: seq<Record>, id: string, body: Record)
    requires "id" !in body
    ensures var o := Update(s, id, body);
      Update(o.store, id, body) == o
  {
    var i := FindIndex(s, id);
    if i != -1 {
      var t := Update(s, id, body).store;
      assert t[..i] == s[..i];
      MergeKeepsId(s[i], body, id);
      assert FirstMatch(t, id, i);
      MergeIdempotent(s[i], body);
      assert t[i := Merge(t[i], body)] == t;
    }
  }

  /** An update whose body carries no `id` keeps the ids unique. */
  lemma UpdatePreservesUniqueIds(s: seq<Record>, id: string, body: Record)
    requires UniqueIds(s) && "id" !in body
    ensures UniqueIds(Update(s, id, body).store)
  {
    var i := FindIndex(s, id);
    if i != -1 {
      var t := Update(s, id, body).store;
      assert forall j :: 0 <= j < |t| ==> ("id" in t[j] <==> "id" in s[j]) && ("id" in t[j] ==> t[j]["id"] == s[j]["id"]);
    }
  }

  /** An update whose body carries an `id` can give two products the same id; a get of
      that id then answers the earlier one only. */
  lemma UpdateMayDuplicateIds()
    ensures var t := Update(Seed(), "1", map["id" := Str("2")]).store;
      && !UniqueIds(t)
      && Get(t, "2") == OkJson(Obj(t[0]))
      && t[0] != Seed()[1]
  {
    var s := Seed();
    assert FirstMatch(s, "1", 0);
    var t := Update(s, "1", map["id" := Str("2")]).store;
    assert t[0]["id"] == t[1]["id"];
    assert FirstMatch(t, "2", 0);
    assert t[0]["name"] == Str("Laptop") != s[1]["name"];
  }

  // ---------------------------------------------------------------------------
  // Delete

  /** Delete removes exactly the first match: one record fewer, the others in their order,
      and the removed record is the one answered. */
  lemma DeleteRemovesFirstMatch(s: seq<Record>, id: string, i: int)
    requires FirstMatch(s, id, i)
    ensures var o := Delete(s, id);
      && |o.store| == |s| - 1
      && (forall j :: 0 <= j < i ==> o.store[j] == s[j])
      && (forall j :: i <= j < |o.store| ==> o.store[j] == s[j + 1])
      && o.res == OkJson(DeletedBody(s[i]))
  {
    FirstMatchIsFound(s, id, i);
    var t := s[..i] + s[i + 1..];
    assert Delete(s, id) == Outcome(OkJson(DeletedBody(s[i])), t);
    forall j | 0 <= j < i ensures t[j] == s[j] {
      assert t[j] == s[..i][j];
    }
    forall j | i <= j < |t| ensures t[j] == s[j + 1] {
      assert t[j] == s[i + 1..][j - i];
    }
  }

  /** With unique ids, once a product is deleted its id is not found any more. */
  lemma DeleteThenGet(s: seq<Record>, id: string)
    requires UniqueIds(s) && !NoMatch(s, id)
    ensures Get(Delete(s, id).store, id) == NotFound
  {
    var i := FindIndex(s, id);
    var t := Delete(s, id).store;
    forall k | 0 <= k < |t| ensures !IdMatches(t[k], id) {
      if k < i {
        assert t[k] == s[..i][k];
      } else {
        assert t[k] == s[k + 1];
      }
    }
  }

  /** Delete keeps the ids unique. */
  lemma DeletePreservesUniqueIds(s: seq<Record>, id: string)
    requires UniqueIds(s)
    ensures UniqueIds(Delete(s, id).store)
  {
    var i := FindIndex(s, id);
    if i != -1 {
      var t := Delete(s, id).store;
      forall a, b | 0 <= a < b < |t| && "id" in t[a] && "id" in t[b]
        ensures t[a]["id"] != t[b]["id"]
      {
        var a' := if a < i then a else a + 1;
        var b' := if b < i then b else b + 1;
        assert t[a] == s[a'] && t[b] == s[b'];
      }
    }
  }

  // ---------------------------------------------------------------------------
  // The seed store

  /** From the seed store: three products are listed, product "2" is the smartphone,
      deleting it leaves two products and a later get of "2" answers 404. */
  lemma SeedScenario()
    ensures |List(Seed()).body.items| == 3
    ensures Get(Seed(), "2") == OkJson(Obj(Seed()[1]))
    ensures var o := Delete(Seed(), "2");
      && o.res == OkJson(DeletedBody(Seed()[1]))
      && |o.store| == 2
      && Get(o.store, "2") == NotFound
  {
    var s := Seed();
    assert FirstMatch(s, "2", 1);
    DeleteThenGet(s, "2");
  }
}
