/** The product handlers of the backend: the paginated, filterable listing and
    the create, update and delete handlers over the catalogue tables. */
module ProductController {
  import opened Wrappers
  import opened Seqs
  import opened Db

  /** A product with `include: { categories: { include: { category: true } } }`:
      the categories it is linked to, in table order. */
  datatype Listing = Listing(product: Product, categories: seq<Category>)

  /** The query string after `parseInt`: `None` when a parameter is absent, empty or not a number. */
  datatype ProductsQuery = ProductsQuery(page: Option<int>, limit: Option<int>, categoryId: Option<int>)

  /** `{ data, page, limit, total, totalPages }`. */
  datatype ProductPage = ProductPage(data: seq<Listing>, page: int, limit: int, total: nat, totalPages: nat)

  const DEFAULT_PAGE := 1
  const DEFAULT_LIMIT := 5
  const FETCH_FAILED := "Failed to fetch products"

  /** `parseInt(x) || d`: the default replaces a missing number and zero, and nothing else
      (a negative number passes through). */
  function OrDefault(parsed: Option<int>, default: int): (v: int)
    ensures parsed.Some? && parsed.value != 0 ==> v == parsed.value
    ensures parsed.None? || parsed.value == 0 ==> v == default
  {
    match parsed
    case Some(n) => if n != 0 then n else default
    case None => default
  }

  /** A product with the categories it is linked to. */
  function Include(p: Product, categories: seq<Category>, links: set<Link>): (l: Listing)
    ensures l.product == p
    ensures forall c :: c in l.categories <==> c in categories && Link(p.id, c.id) in links
  {
    Listing(p, Filter(categories, (c: Category) => Link(p.id, c.id) in links))
  }

  /** The `where` condition: `categories: { some: { categoryId } }` when the
      parsed category id is truthy (neither missing nor zero), no condition otherwise. */
  predicate Selected(p: Product, links: set<Link>, categoryId: Option<int>) {
    match categoryId
    case Some(c) => c == 0 || Link(p.id, c) in links
    case None => true
  }

  /** The products the `where` condition selects, in table order. */
  function Matching(products: seq<Product>, links: set<Link>, categoryId: Option<int>): (m: seq<Product>)
    ensures |m| <= |products|
    ensures forall p :: p in m <==> p in products && Selected(p, links, categoryId)
  {
    Filter(products, (p: Product) => Selected(p, links, categoryId))
  }

  /** `Math.ceil(total / limit)` for a positive limit. */
  function PageCount(total: nat, limit: int): (pages: nat)
    requires limit > 0
    ensures total <= pages * limit
    ensures pages > 0 ==> (pages - 1) * limit < total
  {
    var q := (total + limit - 1) / limit;
    var r := (total + limit - 1) % limit;
    assert total + limit - 1 == q * limit + r;
    assert (q - 1) * limit == q * limit - limit;
    q
  }

  /** `skip` and `take` on a list: at most `take` items, starting at position `skip`. */
  function Window<T>(s: seq<T>, skip: nat, take: nat): (w: seq<T>)
    ensures |w| <= take
    ensures skip < |s| ==> |w| == if skip + take <= |s| then take else |s| - skip
    ensures skip >= |s| ==> w == []
    ensures forall i :: 0 <= i < |w| ==> skip + i < |s| && w[i] == s[skip + i]
  {
    if skip >= |s| then []
    else if skip + take <= |s| then s[skip..skip + take]
    else s[skip..]
  }

  /** `getProducts`. For a negative `skip` or `take` the model answers 500, as
      the handler's catch would; that is a choice of the model, which does not
      say what the database client does with such values. */
  function GetProducts(products: seq<Product>, categories: seq<Category>, links: set<Link>, q: ProductsQuery): (r: Reply<ProductPage>)
    ensures var page := OrDefault(q.page, DEFAULT_PAGE);
            var limit := OrDefault(q.limit, DEFAULT_LIMIT);
            var skip := (page - 1) * limit;
            var matching := Matching(products, links, q.categoryId);
      && (r.Ok? <==> skip >= 0 && limit > 0)
      && (!r.Ok? ==> r == Failed(500, FETCH_FAILED))
      && (r.Ok? ==>
            && r.body.page == page && r.body.limit == limit
            && r.body.total == |matching|
            && r.body.totalPages == PageCount(|matching|, limit)
            && |r.body.data| <= limit
            && (skip < |matching| ==> |r.body.data| == if skip + limit <= |matching| then limit else |matching| - skip)
            && (forall i :: 0 <= i < |r.body.data| ==>
                  skip + i < |matching| && r.body.data[i] == Include(matching[skip + i], categories, links)))
  {
    var page := OrDefault(q.page, DEFAULT_PAGE);
    var limit := OrDefault(q.limit, DEFAULT_LIMIT);
    var skip := (page - 1) * limit;
    if skip < 0 || limit < 0 then Failed(500, FETCH_FAILED)
    else
      var matching := Matching(products, links, q.categoryId);
      var window := Window(matching, skip, limit);
      var data := seq(|window|, i requires 0 <= i < |window| => Include(window[i], categories, links));
      Ok(ProductPage(data, page, limit, |matching|, PageCount(|matching|, limit)))
  }

  /** With no category filter (absent, not a number, or 0) every product is listed, in table order.
      The proof is the call to `FilterKeepsAll`; automatic induction on `products` is switched off. */
  lemma {:induction false} NoFilterSelectsAll(products: seq<Product>, links: set<Link>, categoryId: Option<int>)
    requires categoryId.None? || categoryId.value == 0
    ensures Matching(products, links, categoryId) == products
  {
    FilterKeepsAll(products, (p: Product) => Selected(p, links, categoryId));
  }

  /** With a category filter, exactly the products linked to that category are selected. */
  lemma FilterSelectsLinked(products: seq<Product>, links: set<Link>, c: int)
    requires c != 0
    ensures forall p :: p in Matching(products, links, Some(c)) <==> p in products && Link(p.id, c) in links
  {
  }

  /** `total` and `totalPages` count every matching product, whatever the page. */
  lemma TotalIgnoresPage(products: seq<Product>, categories: seq<Category>, links: set<Link>, q1: ProductsQuery, q2: ProductsQuery)
    requires q1.limit == q2.limit && q1.categoryId == q2.categoryId
    requires GetProducts(products, categories, links, q1).Ok? && GetProducts(products, categories, links, q2).Ok?
    ensures GetProducts(products, categories, links, q1).body.total == GetProducts(products, categories, links, q2).body.total
    ensures GetProducts(products, categories, links, q1).body.totalPages == GetProducts(products, categories, links, q2).body.totalPages
  {
  }

  /** The page arithmetic behind `EveryMatchOnItsPage`. */
  lemma PageOfIndex(i: nat, limit: int, total: nat)
    requires limit > 0 && i < total
    ensures var page := i / limit + 1;
      && (page - 1) * limit == i - i % limit
      && 1 <= page <= PageCount(total, limit)
  {
    var page := i / limit + 1;
    var pages := PageCount(total, limit);
    assert i == (i / limit) * limit + i % limit;
  }

  /** Every matching product appears on exactly the page `i / limit + 1`, which
      lies between 1 and `totalPages`, at position `i % limit`. */
  lemma EveryMatchOnItsPage(products: seq<Product>, categories: seq<Category>, links: set<Link>, q: ProductsQuery, i: nat)
    requires OrDefault(q.limit, DEFAULT_LIMIT) > 0
    requires i < |Matching(products, links, q.categoryId)|
    ensures var limit := OrDefault(q.limit, DEFAULT_LIMIT);
            var matching := Matching(products, links, q.categoryId);
            var page := i / limit + 1;
            var r := GetProducts(products, categories, links, q.(page := Some(page)));
      && 1 <= page <= PageCount(|matching|, limit)
      && r.Ok? && i % limit < |r.body.data|
      && r.body.data[i % limit] == Include(matching[i], categories, links)
  {
    var limit := OrDefault(q.limit, DEFAULT_LIMIT);
    var matching := Matching(products, links, q.categoryId);
    var page := i / limit + 1;
    PageOfIndex(i, limit, |matching|);
    var skip := (page - 1) * limit;
    assert OrDefault(Some(page), DEFAULT_PAGE) == page;
    var r := GetProducts(products, categories, links, q.(page := Some(page)));
    assert r.Ok?;
    assert skip + i % limit == i;
  }

  // ---------------------------------------------------------------- mutations

  /** The links `categoryIds.map(id => ({ category: { connect: { id } } }))` creates for product `pid`. */
  function LinksFor(pid: int, categoryIds: seq<int>): (ls: set<Link>)
    ensures forall l :: l in ls <==> l.productId == pid && l.categoryId in categoryIds
  {
    set c | c in categoryIds :: Link(pid, c)
  }

  /** The body of `createProduct` and `updateProduct`; `None` is a field left out
      of the request. `categoryIds` is always present (`categoryIds.map` is called unguarded). */
  datatype ProductRequest = ProductRequest(
    name: Option<string>,
    description: Option<string>,
    price: Option<real>,
    stockQuantity: Option<int>,
    imageUrl: Option<string>,
    categoryIds: seq<int>)

  /** `!name || !price || stockQuantity == null` is false: a zero price is refused,
      a zero stock quantity accepted. */
  predicate HasRequiredFields(req: ProductRequest) {
    Truthy(req.name) && req.price.Some? && req.price.value != 0.0 && req.stockQuantity.Some?
  }

  predicate AllExist(ids: seq<int>, categories: seq<Category>) {
    forall c :: c in ids ==> c in CategoryIds(categories)
  }

  /** Product `p` after an update: a field missing from the request keeps its value. */
  function Patched(p: Product, req: ProductRequest): (u: Product)
    ensures u.id == p.id
    ensures u.name == (if req.name.Some? then req.name.value else p.name)
    ensures u.description == (if req.description.Some? then req.description else p.description)
    ensures u.price == (if req.price.Some? then req.price.value else p.price)
    ensures u.stockQuantity == (if req.stockQuantity.Some? then req.stockQuantity.value else p.stockQuantity)
    ensures u.imageUrl == (if req.imageUrl.Some? then req.imageUrl else p.imageUrl)
  {
    Product(
      p.id,
      if req.name.Some? then req.name.value else p.name,
      if req.description.Some? then req.description else p.description,
      if req.price.Some? then req.price.value else p.price,
      if req.stockQuantity.Some? then req.stockQuantity.value else p.stockQuantity,
      if req.imageUrl.Some? then req.imageUrl else p.imageUrl)
  }

  /** `createProduct`: validation, then one nested write that inserts the product
      and one link per category id. Connecting an id that is not a category
      makes the write fail as a whole; nothing catches that. */
  method CreateProduct(db: Store, req: ProductRequest) returns (r: Reply<Listing>)
    requires db.Valid()
    modifies db
    ensures db.Valid()
    ensures !HasRequiredFields(req) ==> r == Failed(400, "Missing required fields") && unchanged(db)
    ensures HasRequiredFields(req) && !AllExist(req.categoryIds, old(db.categories)) ==> r == NoReply && unchanged(db)
    ensures HasRequiredFields(req) && AllExist(req.categoryIds, old(db.categories)) ==>
      var p := Product(old(db.nextProductId), req.name.value, req.description, req.price.value,
                       req.stockQuantity.value, req.imageUrl);
      && db.products == old(db.products) + [p]
      && db.links == old(db.links) + LinksFor(p.id, req.categoryIds)
      && db.categories == old(db.categories)
      && db.nextProductId == old(db.nextProductId) + 1 && db.nextCategoryId == old(db.nextCategoryId)
      && r == Ok(Include(p, db.categories, db.links))
  {
    if !HasRequiredFields(req) {
      return Failed(400, "Missing required fields");
    }
    if !AllExist(req.categoryIds, db.categories) {
      return NoReply;
    }
    var p := Product(db.nextProductId, req.name.value, req.description, req.price.value,
                     req.stockQuantity.value, req.imageUrl);
    AddProductKeepsConsistent(db.products, db.categories, db.links, db.nextProductId, db.nextCategoryId,
                              p, LinksFor(p.id, req.categoryIds));
    db.products := db.products + [p];
    db.links := db.links + LinksFor(p.id, req.categoryIds);
    db.nextProductId := db.nextProductId + 1;
    r := Ok(Include(p, db.categories, db.links));
  }

  /** A created product is listed last under no filter and under each of its categories.
      The proof goes through `FilterAppend`; automatic induction on `products` is switched off. */
  lemma {:induction false} CreatedProductListedLast(products: seq<Product>, links: set<Link>, p: Product,
                                                    categoryIds: seq<int>, categoryId: Option<int>)
    requires categoryId.None? || categoryId.value == 0 || categoryId.value in categoryIds
    ensures var added := links + LinksFor(p.id, categoryIds);
      Matching(products + [p], added, categoryId) == Matching(products, added, categoryId) + [p]
  {
    var added := links + LinksFor(p.id, categoryIds);
    var keep := (x: Product) => Selected(x, added, categoryId);
    FilterAppend(products, [p], keep);
    assert keep(p);
    assert [p][1..] == [];
  }

  /** `updateProduct`: one nested write that patches the row, deletes all of its
      links and creates one per category id. A missing row or an unknown category
      id makes the write fail as a whole; nothing catches that. */
  method UpdateProduct(db: Store, id: int, req: ProductRequest) returns (r: Reply<Listing>)
    requires db.Valid()
    modifies db
    ensures db.Valid()
    ensures id !in ProductIds(old(db.products)) || !AllExist(req.categoryIds, old(db.categories)) ==>
      r == NoReply && unchanged(db)
    ensures id in ProductIds(old(db.products)) && AllExist(req.categoryIds, old(db.categories)) ==>
      && r.Ok? && r.body.product.id == id
      && db.products == ReplaceRow(old(db.products), ProductId, r.body.product)
      && (exists p :: p in old(db.products) && p.id == id && r.body.product == Patched(p, req))
      && (forall c :: Link(id, c) in db.links <==> c in req.categoryIds)
      && (forall l: Link :: l.productId != id ==> (l in db.links <==> l in old(db.links)))
      && db.categories == old(db.categories)
      && db.nextProductId == old(db.nextProductId) && db.nextCategoryId == old(db.nextCategoryId)
      && r.body == Include(r.body.product, db.categories, db.links)
  {
    if id !in ProductIds(db.products) || !AllExist(req.categoryIds, db.categories) {
      return NoReply;
    }
    var p :| p in db.products && p.id == id;
    var u := Patched(p, req);
    UpdateProductKeepsConsistent(db.products, db.categories, db.links, db.nextProductId, db.nextCategoryId,
                                 p, u, req.categoryIds);
    db.products := ReplaceRow(db.products, ProductId, u);
    db.links := Relink(db.links, id, req.categoryIds);
    r := Ok(Include(u, db.categories, db.links));
  }

  /** `categories: { deleteMany: {}, create: ... }`: all links of product `pid`
      replaced by one per id in `categoryIds`. */
  function Relink(links: set<Link>, pid: int, categoryIds: seq<int>): (ls: set<Link>)
    ensures forall c :: Link(pid, c) in ls <==> c in categoryIds
    ensures forall l: Link :: l.productId != pid ==> (l in ls <==> l in links)
  {
    (set l | l in links && l.productId != pid) + LinksFor(pid, categoryIds)
  }

  /** Relinking an existing product to existing categories keeps every link pointing at existing rows. */
  lemma RelinkKeepsIntegrity(links: set<Link>, pid: int, categoryIds: seq<int>, products: seq<Product>, categories: seq<Category>)
    requires forall l :: l in links ==> l.productId in ProductIds(products) && l.categoryId in CategoryIds(categories)
    requires pid in ProductIds(products) && AllExist(categoryIds, categories)
    ensures forall l :: l in Relink(links, pid, categoryIds) ==>
      l.productId in ProductIds(products) && l.categoryId in CategoryIds(categories)
  {
  }

  /** Patching a product in place and relinking it to existing categories keeps the tables consistent. */
  lemma UpdateProductKeepsConsistent(products: seq<Product>, categories: seq<Category>, links: set<Link>,
                                     np: int, nc: int, p: Product, u: Product, categoryIds: seq<int>)
    requires Consistent(products, categories, links, np, nc)
    requires p in products && u.id == p.id && AllExist(categoryIds, categories)
    ensures Consistent(ReplaceRow(products, ProductId, u), categories, Relink(links, p.id, categoryIds), np, nc)
  {
    var r := ReplaceRow(products, ProductId, u);
    ReplaceRowKeepsTable(products, ProductId, p, u);
    ProductIdsAreIds(products);
    ProductIdsAreIds(r);
    RelinkKeepsIntegrity(links, p.id, categoryIds, products, categories);
  }

  /** `deleteProduct`: first delete the product's links, then the product. A
      missing product makes the second step fail; the catch answers 500 with
      the links already gone (there were none). */
  method DeleteProduct(db: Store, id: int) returns (r: Reply<string>)
    requires db.Valid()
    modifies db
    ensures db.Valid()
    ensures forall l :: l in db.links ==> l.productId != id
    ensures forall l: Link :: l.productId != id ==> (l in db.links <==> l in old(db.links))
    ensures id !in ProductIds(db.products)
    ensures forall p :: p in db.products <==> p in old(db.products) && p.id != id
    ensures db.categories == old(db.categories)
    ensures db.nextProductId == old(db.nextProductId) && db.nextCategoryId == old(db.nextCategoryId)
    ensures id in ProductIds(old(db.products)) <==> r == Ok("Product deleted")
    ensures id !in ProductIds(old(db.products)) ==> r == Failed(500, "Failed to delete product") && unchanged(db)
  {
    db.links := set l | l in db.links && l.productId != id;
    if id !in ProductIds(db.products) {
      assert db.links == old(db.links);
      return Failed(500, "Failed to delete product");
    }
    DeleteProductKeepsConsistent(db.products, db.categories, old(db.links), db.nextProductId, db.nextCategoryId, id);
    db.products := Filter(db.products, (p: Product) => p.id != id);
    r := Ok("Product deleted");
  }

  /** Inserting a product with the next id, linked to existing categories, keeps the tables consistent. */
  lemma AddProductKeepsConsistent(products: seq<Product>, categories: seq<Category>, links: set<Link>,
                                  np: int, nc: int, p: Product, added: set<Link>)
    requires Consistent(products, categories, links, np, nc)
    requires p.id == np
    requires forall l :: l in added ==> l.productId == np && l.categoryId in CategoryIds(categories)
    ensures Consistent(products + [p], categories, links + added, np + 1, nc)
  {
    var ps := products + [p];
    assert p !in products;
    assert ProductIds(ps) == ProductIds(products) + {np};
    forall i, j | 0 <= i < j < |ps| ensures ps[i] != ps[j] {
      if j == |products| {
        assert ps[i] in products;
      } else {
        assert ps[i] == products[i] && ps[j] == products[j];
      }
    }
  }

  /** Deleting a product's links and then the product keeps the tables consistent. */
  lemma DeleteProductKeepsConsistent(products: seq<Product>, categories: seq<Category>, links: set<Link>,
                                     np: int, nc: int, id: int)
    requires Consistent(products, categories, links, np, nc)
    ensures Consistent(Filter(products, (p: Product) => p.id != id), categories,
                       (set l | l in links && l.productId != id), np, nc)
  {
    var ps := Filter(products, (p: Product) => p.id != id);
    FilterNoDup(products, (p: Product) => p.id != id);
    forall l | l in links && l.productId != id ensures l.productId in ProductIds(ps) {
      var p :| p in products && p.id == l.productId;
      assert p in ps;
    }
  }
}
