/** Product records and the lookups, constructors and merges the handlers use on them.
    A product is an open record; the store is the ordered sequence of them. */
module Products {
  import opened Json

  /** The body fields a created product copies, besides its generated `id`. */
  const BodyFields: set<string> := {"name", "description", "price", "category", "inStock"}

  /** The search predicate `p => p.id === id`: strict equality, so only a string id equal
      to the requested one matches (no coercion of numbers, no match on a missing id). */
  predicate IdMatches(p: Record, id: string) {
    "id" in p && p["id"] == Str(id)
  }

  /** No record of `s` carries the id. */
  predicate NoMatch(s: seq<Record>, id: string) {
    forall k :: 0 <= k < |s| ==> !IdMatches(s[k], id)
  }

  /** `i` is the first position of `s` whose record carries the id. */
  predicate FirstMatch(s: seq<Record>, id: string, i: int) {
    0 <= i < |s| && IdMatches(s[i], id) && NoMatch(s[..i], id)
  }

  /** No two records of the store carry the same id value. */
  predicate UniqueIds(s: seq<Record>) {
    forall i, j :: 0 <= i < j < |s| && "id" in s[i] && "id" in s[j] ==> s[i]["id"] != s[j]["id"]
  }

  /** `products.findIndex(p => p.id === id)`: the first matching position, or -1. */
  function FindIndex(s: seq<Record>, id: string): (i: int)
    ensures i == -1 <==> NoMatch(s, id)
    ensures i != -1 ==> FirstMatch(s, id, i)
  {
    if s == [] then -1
    else if IdMatches(s[0], id) then 0
    else
      var j := FindIndex(s[1..], id);
      assert forall k :: 1 <= k < |s| ==> s[k] == s[1..][k - 1];
      if j == -1 then -1
      else
        assert s[..j + 1][1..] == s[1..][..j];
        j + 1
  }

  /** A first match is unique, so it is the one `findIndex` returns. */
  lemma FirstMatchIsFound(s: seq<Record>, id: string, i: int)
    requires FirstMatch(s, id, i)
    ensures FindIndex(s, id) == i
  {
  }

  /** `products.find(p => p.id === id)`: the first matching record, or `undefined`. */
  function Find(s: seq<Record>, id: string): (r: Option<Record>)
    ensures r == None <==> NoMatch(s, id)
    ensures forall i :: FirstMatch(s, id, i) ==> r == Some(s[i])
  {
    if s == [] then None
    else if IdMatches(s[0], id) then
      Some(s[0])
    else
      var r := Find(s[1..], id);
      assert forall k :: 1 <= k < |s| ==> s[k] == s[1..][k - 1];
      assert forall i :: FirstMatch(s, id, i) ==> FirstMatch(s[1..], id, i - 1) by {
        forall i | FirstMatch(s, id, i) ensures FirstMatch(s[1..], id, i - 1) {
          assert i != 0;
          assert s[1..][..i - 1] == s[..i][1..];
        }
      }
      r
  }

  /** `find` and `findIndex` agree: both designate the first match. */
  lemma FindAgreesWithFindIndex(s: seq<Record>, id: string)
    ensures Find(s, id) == if FindIndex(s, id) == -1 then None else Some(s[FindIndex(s, id)])
  {
    var i := FindIndex(s, id);
    if i != -1 {
      assert FirstMatch(s, id, i);
    }
  }

  /** The create handler's guard `!name || !price` fails: both fields are truthy. */
  predicate CreateAccepts(body: Record) {
    Truthy(Property(body, "name")) && Truthy(Property(body, "price"))
  }

  /** The record literal built by create: the supplied id and the five destructured fields,
      each `undefined` when the body lacks it. */
  function NewProduct(body: Record, id: string): (p: Record)
    ensures p.Keys == BodyFields + {"id"}
    ensures IdMatches(p, id)
    ensures forall k :: k in BodyFields ==> p[k] == Property(body, k)
  {
    map[
      "id" := Str(id),
      "name" := Property(body, "name"),
      "description" := Property(body, "description"),
      "price" := Property(body, "price"),
      "category" := Property(body, "category"),
      "inStock" := Property(body, "inStock")
    ]
  }

  /** The spread `{ ...p, ...body }`: the keys of both, the body's value winning. */
  function Merge(p: Record, body: Record): (m: Record)
    ensures m.Keys == p.Keys + body.Keys
    ensures forall k :: k in body ==> m[k] == body[k]
    ensures forall k :: k in p && k !in body ==> m[k] == p[k]
  {
    p + body
  }

  /** Merging the same body twice changes nothing more than merging it once. */
  lemma MergeIdempotent(p: Record, body: Record)
    ensures Merge(Merge(p, body), body) == Merge(p, body)
  {
  }

  /** A body without an `id` key leaves the record's id as it was. */
  lemma MergeKeepsId(p: Record, body: Record, id: string)
    requires "id" !in body
    ensures IdMatches(Merge(p, body), id) <==> IdMatches(p, id)
  {
  }

  /** The three records the store starts with. */
  function Seed(): (s: seq<Record>)
    ensures |s| == 3 && UniqueIds(s)
    ensures IdMatches(s[0], "1") && IdMatches(s[1], "2") && IdMatches(s[2], "3")
  {
    [
      map[
        "id" := Str("1"),
        "name" := Str("Laptop"),
        "description" := Str("High-performance laptop with 16GB RAM"),
        "price" := Num(1200),
        "category" := Str("electronics"),
        "inStock" := Bool(true)
      ],
      map[
        "id" := Str("2"),
        "name" := Str("Smartphone"),
        "description" := Str("Latest model with 128GB storage"),
        "price" := Num(800),
        "category" := Str("electronics"),
        "inStock" := Bool(true)
      ],
      map[
        "id" := Str("3"),
        "name" := Str("Coffee Maker"),
        "description" := Str("Programmable coffee maker with timer"),
        "price" := Num(50),
        "category" := Str("kitchen"),
        "inStock" := Bool(false)
      ]
    ]
  }
}
