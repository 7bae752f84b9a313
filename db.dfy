/** The three catalogue tables the product and category handlers work on:
    products, categories, and the product-category link table. */
module Db {
  import opened Wrappers
  import opened Seqs

  datatype Product = Product(
    id: int,
    name: string,
    description: Option<string>,
    price: real,
    stockQuantity: int,
    imageUrl: Option<string>)

  datatype Category = Category(id: int, name: string)

  /** A row of the link table: product `productId` is in category `categoryId`. */
  datatype Link = Link(productId: int, categoryId: int)

  /** A handler's answer: a JSON body with status 200, an `{error}` body with
      another status, or `NoReply` when an exception escapes a handler without
      a try/catch: the handler itself sends nothing. What the server runtime
      does next is not part of the model. */
  datatype Reply<+T> = Ok(body: T) | Failed(status: int, error: string) | NoReply

  function ProductId(p: Product): int {
    p.id
  }

  function CategoryId(c: Category): int {
    c.id
  }

  /** The ids of a table's rows, `id` being the table's key. */
  function Ids<T(==)>(rows: seq<T>, id: T -> int): (ids: set<int>)
    ensures forall x :: x in rows ==> id(x) in ids
    ensures forall v :: v in ids ==> exists x :: x in rows && id(x) == v
  {
    set x | x in rows :: id(x)
  }

  function ProductIds(ps: seq<Product>): (ids: set<int>)
    ensures forall p :: p in ps ==> p.id in ids
    ensures forall id :: id in ids ==> exists p :: p in ps && p.id == id
  {
    set p | p in ps :: p.id
  }

  function CategoryIds(cs: seq<Category>): (ids: set<int>)
    ensures forall c :: c in cs ==> c.id in ids
    ensures forall id :: id in ids ==> exists c :: c in cs && c.id == id
  {
    set c | c in cs :: c.id
  }

  /** The product ids are the keys of the product table. */
  lemma ProductIdsAreIds(ps: seq<Product>)
    ensures ProductIds(ps) == Ids(ps, ProductId)
  {
    assert forall v :: v in Ids(ps, ProductId) ==> v in ProductIds(ps);
  }

  /** The category ids are the keys of the category table. */
  lemma CategoryIdsAreIds(cs: seq<Category>)
    ensures CategoryIds(cs) == Ids(cs, CategoryId)
  {
    assert forall v :: v in Ids(cs, CategoryId) ==> v in CategoryIds(cs);
  }

  /** A table with the row whose key is `id(u)` replaced by `u`: an update by key. */
  function ReplaceRow<T>(rows: seq<T>, id: T -> int, u: T): (r: seq<T>)
    ensures |r| == |rows|
    ensures forall i :: 0 <= i < |rows| ==> r[i] == if id(rows[i]) == id(u) then u else rows[i]
  {
    seq(|rows|, i requires 0 <= i < |rows| => if id(rows[i]) == id(u) then u else rows[i])
  }

  /** Replacing a row by one with the same key keeps the rows distinct, the keys
      unique and the set of keys unchanged. */
  lemma ReplaceRowKeepsTable<T>(rows: seq<T>, id: T -> int, c: T, u: T)
    requires NoDup(rows)
    requires forall x, y :: x in rows && y in rows && id(x) == id(y) ==> x == y
    requires c in rows && id(u) == id(c)
    ensures var r := ReplaceRow(rows, id, u);
      && NoDup(r)
      && (forall x, y :: x in r && y in r && id(x) == id(y) ==> x == y)
      && (forall x :: x in r <==> x == u || (x in rows && id(x) != id(u)))
      && Ids(r, id) == Ids(rows, id)
  {
    var r := ReplaceRow(rows, id, u);
    forall x | x in r ensures x == u || (x in rows && id(x) != id(u)) {
      var i :| 0 <= i < |r| && r[i] == x;
    }
    forall x | x == u || (x in rows && id(x) != id(u)) ensures x in r {
      if x == u {
        var i :| 0 <= i < |rows| && rows[i] == c;
        assert r[i] == u;
      } else {
        var i :| 0 <= i < |rows| && rows[i] == x;
        assert r[i] == x;
      }
    }
  }

  /** Table invariants: no row twice, ids unique and below the next id the
      database hands out, and every link names an existing product and an
      existing category. */
  ghost predicate Consistent(products: seq<Product>, categories: seq<Category>, links: set<Link>,
                             nextProductId: int, nextCategoryId: int)
  {
    && 0 < nextProductId && 0 < nextCategoryId
    && NoDup(products)
    && (forall p, q :: p in products && q in products && p.id == q.id ==> p == q)
    && (forall p :: p in products ==> 0 < p.id < nextProductId)
    && NoDup(categories)
    && (forall c, d :: c in categories && d in categories && c.id == d.id ==> c == d)
    && (forall c :: c in categories ==> 0 < c.id < nextCategoryId)
    && (forall l :: l in links ==> l.productId in ProductIds(products) && l.categoryId in CategoryIds(categories))
  }

  class Store {
    var products: seq<Product>
    var categories: seq<Category>
    var links: set<Link>
    var nextProductId: int
    var nextCategoryId: int

    ghost predicate Valid()
      reads this
    {
      Consistent(products, categories, links, nextProductId, nextCategoryId)
    }

    constructor ()
      ensures Valid()
      ensures products == [] && categories == [] && links == {}
      ensures nextProductId == 1 && nextCategoryId == 1
    {
      products, categories, links := [], [], {};
      nextProductId, nextCategoryId := 1, 1;
    }
  }
}
