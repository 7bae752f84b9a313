/** The products page of the front end: the `page` and `categoryId` state
    behind the paginated, filterable table, the query it sends, the Prev and
    Next buttons, the delete confirmation and the categories column. */
module ProductsPage {
  import opened Wrappers
  import opened Seqs
  import opened Db
  import opened ProductController

  /** The select's value for "no filter". */
  const ALL := "all"
  /** The page size the page asks for. */
  const PAGE_SIZE := 5
  const CATEGORY_SEPARATOR := ", "

  /** The query parameters of the products request; `categoryId` is the
      select's value, a string. */
  datatype Params = Params(page: int, limit: int, categoryId: Option<string>)

  /** `{ page, limit: 5 }`, with `categoryId` added only when the filter is truthy. */
  function RequestParams(page: int, categoryId: Option<string>): (p: Params)
    ensures p.page == page && p.limit == PAGE_SIZE
    ensures p.categoryId.Some? <==> Truthy(categoryId)
    ensures p.categoryId.Some? ==> p.categoryId == categoryId
  {
    Params(page, PAGE_SIZE, if Truthy(categoryId) then categoryId else None)
  }

  /** The query the backend sees once it has parsed the parameters; `parse`
      stands for `parseInt` on the category id. */
  function ServedQuery(p: Params, parse: string -> Option<int>): (q: ProductsQuery)
    ensures q.page == Some(p.page) && q.limit == Some(p.limit)
    ensures p.categoryId.None? ==> q.categoryId.None?
    ensures p.categoryId.Some? ==> q.categoryId == parse(p.categoryId.value)
  {
    ProductsQuery(Some(p.page), Some(p.limit), if p.categoryId.Some? then parse(p.categoryId.value) else None)
  }

  /** The filter the select's `onValueChange` records: none for "all". */
  function FilterChoice(val: string): (c: Option<string>)
    ensures c.None? <==> val == ALL
    ensures c.Some? ==> c.value == val
  {
    if val == ALL then None else Some(val)
  }

  /** The select's shown value, `categoryId || "all"`. */
  function SelectValue(categoryId: Option<string>): (v: string)
    ensures Truthy(categoryId) ==> v == categoryId.value
    ensures !Truthy(categoryId) ==> v == ALL
  {
    if Truthy(categoryId) then categoryId.value else ALL
  }

  /** Choosing any non-empty option shows that option again. */
  lemma SelectShowsChoice(val: string)
    requires val != ""
    ensures SelectValue(FilterChoice(val)) == val
  {
  }

  /** Choosing "all" drops the category from the request. */
  lemma AllSendsNoCategory(page: int)
    ensures RequestParams(page, FilterChoice(ALL)).categoryId == None
  {
  }

  predicate PrevDisabled(page: int) {
    page == 1
  }

  /** Next is disabled when the page equals the response's `totalPages`; while
      no response is there, nothing is equal to it. */
  predicate NextDisabled(page: int, totalPages: Option<nat>) {
    totalPages == Some(page)
  }

  /** The page after a click on Prev; a disabled button does nothing. */
  function PrevPage(page: int): (p: int)
    ensures PrevDisabled(page) ==> p == page
    ensures !PrevDisabled(page) ==> p == page - 1
  {
    if PrevDisabled(page) then page else page - 1
  }

  /** The page after a click on Next; a disabled button does nothing. */
  function NextPage(page: int, totalPages: Option<nat>): (p: int)
    ensures NextDisabled(page, totalPages) ==> p == page
    ensures !NextDisabled(page, totalPages) ==> p == page + 1
  {
    if NextDisabled(page, totalPages) then page else page + 1
  }

  /** Prev never leads below page 1. */
  lemma PrevStaysPositive(page: int)
    requires page >= 1
    ensures PrevPage(page) >= 1
    ensures page > 1 ==> PrevPage(page) == page - 1
  {
  }

  /** Within the known pages, Next never leads past the last one. */
  lemma NextStaysWithinPages(page: int, totalPages: nat)
    requires 1 <= page <= totalPages
    ensures 1 <= NextPage(page, Some(totalPages)) <= totalPages
  {
  }

  /** When no product matches, `totalPages` is 0, so Next is enabled on page 1
      and leads to page 2, which the backend answers with no rows. */
  lemma NextEnabledWithoutPages(products: seq<Product>, categories: seq<Category>, links: set<Link>,
                                categoryId: Option<string>, parse: string -> Option<int>)
    requires var q := ServedQuery(RequestParams(1, categoryId), parse);
      Matching(products, links, q.categoryId) == []
    ensures var r := GetProducts(products, categories, links, ServedQuery(RequestParams(1, categoryId), parse));
      && r.Ok? && r.body.totalPages == 0
      && !NextDisabled(1, Some(r.body.totalPages)) && NextPage(1, Some(r.body.totalPages)) == 2
    ensures GetProducts(products, categories, links, ServedQuery(RequestParams(2, categoryId), parse)).Ok?
    ensures GetProducts(products, categories, links, ServedQuery(RequestParams(2, categoryId), parse)).body.data == []
  {
    var q1 := ServedQuery(RequestParams(1, categoryId), parse);
    var q2 := ServedQuery(RequestParams(2, categoryId), parse);
    assert q1.categoryId == q2.categoryId;
    assert PageCount(0, PAGE_SIZE) == 0;
  }

  /** Every page the page can be on is answered: the backend serves the
      requested page with the requested size. */
  lemma RequestIsServed(products: seq<Product>, categories: seq<Category>, links: set<Link>,
                        page: int, categoryId: Option<string>, parse: string -> Option<int>)
    requires page >= 1
    ensures var r := GetProducts(products, categories, links, ServedQuery(RequestParams(page, categoryId), parse));
      r.Ok? && r.body.page == page && r.body.limit == PAGE_SIZE
  {
  }

  /** The page's state. */
  class ProductsPageState {
    var page: int
    var categoryId: Option<string>

    ghost predicate Valid()
      reads this
    {
      page >= 1
    }

    /** Page 1, no filter. */
    constructor ()
      ensures Valid()
      ensures page == 1 && categoryId == None
    {
      page := 1;
      categoryId := None;
    }

    /** The select's `onValueChange`: record the filter and go back to page 1. */
    method SelectCategory(val: string)
      requires Valid()
      modifies this
      ensures Valid()
      ensures categoryId == FilterChoice(val) && page == 1
    {
      categoryId := FilterChoice(val);
      page := 1;
    }

    /** A click on Prev. */
    method ClickPrev()
      requires Valid()
      modifies this
      ensures Valid()
      ensures page == PrevPage(old(page)) && categoryId == old(categoryId)
    {
      if page != 1 {
        page := page - 1;
      }
    }

    /** A click on Next; `totalPages` is the last response's, if any. */
    method ClickNext(totalPages: Option<nat>)
      requires Valid()
      modifies this
      ensures Valid()
      ensures page == NextPage(old(page), totalPages) && categoryId == old(categoryId)
    {
      if totalPages != Some(page) {
        page := page + 1;
      }
    }
  }

  /** `handleDeleteProduct`: the id to delete, only when the user confirms. */
  function HandleDelete(id: int, confirmed: bool): (r: Option<int>)
    ensures r.Some? <==> confirmed
    ensures r.Some? ==> r.value == id
  {
    if confirmed then Some(id) else None
  }

  /** The names of a product's categories, in order. */
  function CategoryNames(cs: seq<Category>): (names: seq<string>)
    ensures |names| == |cs|
    ensures forall i :: 0 <= i < |cs| ==> names[i] == cs[i].name
  {
    seq(|cs|, i requires 0 <= i < |cs| => cs[i].name)
  }

  /** The categories column: the names joined with ", ". */
  function CategoryColumn(l: Listing): (s: string)
    ensures l.categories == [] ==> s == ""
    ensures |l.categories| == 1 ==> s == l.categories[0].name
  {
    Join(CategoryNames(l.categories), CATEGORY_SEPARATOR)
  }

  /** One more category adds ", " and its name to a non-empty column.
      The proof goes through `JoinAppend`; automatic induction on `cs` is switched off. */
  lemma {:induction false} CategoryColumnAppend(p: Product, cs: seq<Category>, c: Category)
    requires cs != []
    ensures CategoryColumn(Listing(p, cs + [c])) == CategoryColumn(Listing(p, cs)) + CATEGORY_SEPARATOR + c.name
  {
    assert CategoryNames(cs + [c]) == CategoryNames(cs) + CategoryNames([c]);
    JoinAppend(CategoryNames(cs), CategoryNames([c]), CATEGORY_SEPARATOR);
  }
}
