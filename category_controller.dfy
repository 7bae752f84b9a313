/** The category handlers of the backend: list, create, rename and delete. */
module CategoryController {
  import opened Wrappers
  import opened Seqs
  import opened Db

  /** `getCategories`: every category row, in table order. */
  method GetCategories(db: Store) returns (r: seq<Category>)
    ensures forall c :: c in r <==> c in db.categories
    ensures |r| == |db.categories|
  {
    r := db.categories;
  }

  /** `createCategory`: a missing or empty name is refused; otherwise exactly one row is added. */
  method CreateCategory(db: Store, name: Option<string>) returns (r: Reply<Category>)
    requires db.Valid()
    modifies db
    ensures db.Valid()
    ensures !Truthy(name) ==> r == Failed(400, "Name is required") && unchanged(db)
    ensures Truthy(name) ==>
      var c := Category(old(db.nextCategoryId), name.value);
      && db.categories == old(db.categories) + [c]
      && db.products == old(db.products) && db.links == old(db.links)
      && db.nextCategoryId == old(db.nextCategoryId) + 1 && db.nextProductId == old(db.nextProductId)
      && r == Ok(c)
  {
    if !Truthy(name) {
      return Failed(400, "Name is required");
    }
    var c := Category(db.nextCategoryId, name.value);
    AddCategoryKeepsConsistent(db.products, db.categories, db.links, db.nextProductId, db.nextCategoryId, c);
    db.categories := db.categories + [c];
    db.nextCategoryId := db.nextCategoryId + 1;
    r := Ok(c);
  }

  /** `updateCategory`: the row with the id gets the new name, empty included; a
      name left out of the request changes nothing. A missing row makes the
      update throw, and nothing catches that. */
  method UpdateCategory(db: Store, id: int, name: Option<string>) returns (r: Reply<Category>)
    requires db.Valid()
    modifies db
    ensures db.Valid()
    ensures id !in CategoryIds(old(db.categories)) ==> r == NoReply && unchanged(db)
    ensures id in CategoryIds(old(db.categories)) ==>
      && r.Ok? && r.body.id == id
      && (name.Some? ==> r.body.name == name.value)
      && (name.None? ==> r.body in old(db.categories))
      && |db.categories| == |old(db.categories)|
      && (forall i :: 0 <= i < |db.categories| ==>
            db.categories[i] == if old(db.categories)[i].id == id then r.body else old(db.categories)[i])
      && db.products == old(db.products) && db.links == old(db.links)
      && db.nextCategoryId == old(db.nextCategoryId) && db.nextProductId == old(db.nextProductId)
  {
    if id !in CategoryIds(db.categories) {
      return NoReply;
    }
    var c :| c in db.categories && c.id == id;
    var u := if name.Some? then c.(name := name.value) else c;
    RenameKeepsConsistent(db.products, db.categories, db.links, db.nextProductId, db.nextCategoryId, c, u);
    db.categories := ReplaceRow(db.categories, CategoryId, u);
    r := Ok(u);
  }

  /** `deleteCategory`: first delete the category's links, then the category. A
      missing category makes the second step fail; the catch answers 500. */
  method DeleteCategory(db: Store, id: int) returns (r: Reply<string>)
    requires db.Valid()
    modifies db
    ensures db.Valid()
    ensures forall l :: l in db.links ==> l.categoryId != id
    ensures forall l: Link :: l.categoryId != id ==> (l in db.links <==> l in old(db.links))
    ensures id !in CategoryIds(db.categories)
    ensures forall c :: c in db.categories <==> c in old(db.categories) && c.id != id
    ensures db.products == old(db.products)
    ensures db.nextProductId == old(db.nextProductId) && db.nextCategoryId == old(db.nextCategoryId)
    ensures id in CategoryIds(old(db.categories)) <==> r == Ok("Category deleted")
    ensures id !in CategoryIds(old(db.categories)) ==> r == Failed(500, "Failed to delete category") && unchanged(db)
  {
    db.links := set l | l in db.links && l.categoryId != id;
    if id !in CategoryIds(db.categories) {
      assert db.links == old(db.links);
      return Failed(500, "Failed to delete category");
    }
    DeleteCategoryKeepsConsistent(db.products, db.categories, old(db.links), db.nextProductId, db.nextCategoryId, id);
    db.categories := Filter(db.categories, (c: Category) => c.id != id);
    r := Ok("Category deleted");
  }

  /** Inserting a category with the next id keeps the tables consistent. */
  lemma AddCategoryKeepsConsistent(products: seq<Product>, categories: seq<Category>, links: set<Link>,
                                   np: int, nc: int, c: Category)
    requires Consistent(products, categories, links, np, nc)
    requires c.id == nc
    ensures Consistent(products, categories + [c], links, np, nc + 1)
  {
    var cs := categories + [c];
    assert c !in categories;
    assert CategoryIds(cs) == CategoryIds(categories) + {nc};
    forall i, j | 0 <= i < j < |cs| ensures cs[i] != cs[j] {
      if j == |categories| {
        assert cs[i] in categories;
      } else {
        assert cs[i] == categories[i] && cs[j] == categories[j];
      }
    }
  }

  /** Renaming a row keeps the tables consistent. */
  lemma RenameKeepsConsistent(products: seq<Product>, categories: seq<Category>, links: set<Link>,
                              np: int, nc: int, c: Category, u: Category)
    requires Consistent(products, categories, links, np, nc)
    requires c in categories && u.id == c.id
    ensures Consistent(products, ReplaceRow(categories, CategoryId, u), links, np, nc)
  {
    ReplaceRowKeepsTable(categories, CategoryId, c, u);
    CategoryIdsAreIds(categories);
    CategoryIdsAreIds(ReplaceRow(categories, CategoryId, u));
  }

  /** Deleting a category's links and then the category keeps the tables consistent. */
  lemma DeleteCategoryKeepsConsistent(products: seq<Product>, categories: seq<Category>, links: set<Link>,
                                      np: int, nc: int, id: int)
    requires Consistent(products, categories, links, np, nc)
    ensures Consistent(products, Filter(categories, (c: Category) => c.id != id),
                       (set l | l in links && l.categoryId != id), np, nc)
  {
    var cs := Filter(categories, (c: Category) => c.id != id);
    FilterNoDup(categories, (c: Category) => c.id != id);
    forall l | l in links && l.categoryId != id ensures l.categoryId in CategoryIds(cs) {
      var c :| c in categories && c.id == l.categoryId;
      assert c in cs;
    }
  }
}
