/** The catalogue pagination that `getProducts` and `getIndex` in
    controllers/shop.js both compute: the current page from the query string,
    the window of products handed to the view, and the navigation metadata. */
module Pagination {
  import opened Store

  /** `perPage`: products shown on one catalogue page. */
  const PerPage: nat := 6

  /** `req.query.page` after JavaScript's unary `+`: no parameter, a string
      that is not a number (NaN), or an integer. */
  datatype PageQuery = Absent | NotANumber | Number(n: int)

  /** The data the handler passes to the template besides the static titles. */
  datatype PageView = PageView(
    prods: seq<Product>,
    currentPage: int,
    hasNextPage: bool,
    hasPrevPage: bool,
    nextPage: int,
    prevPage: int,
    lastPage: nat)

  /** `+req.query.page || 1`: undefined, NaN and 0 are falsy and give 1;
      every other number, negative ones included, is kept. */
  function CurrentPage(q: PageQuery): int
  {
    match q
    case Number(n) => if n == 0 then 1 else n
    case _ => 1
  }

  /** `Math.ceil(totalProducts / perPage)`: the fewest pages that hold every product. */
  function LastPage(total: nat): (l: nat)
    ensures PerPage * l >= total
    ensures l > 0 ==> PerPage * (l - 1) < total
  {
    (total + PerPage - 1) / PerPage
  }

  /** `Product.find({}).skip(skip).limit(limit)` over the catalogue in store
      order: at most `limit` products, starting with the one at `skip`. */
  function Window(catalogue: seq<Product>, skip: nat, limit: nat): (w: seq<Product>)
    ensures |w| <= limit
    ensures skip + |w| <= |catalogue| || w == []
    ensures skip + limit <= |catalogue| ==> |w| == limit
    ensures skip + limit > |catalogue| ==> skip + |w| == |catalogue| || skip >= |catalogue|
    ensures forall i :: 0 <= i < |w| ==> w[i] == catalogue[skip + i]
  {
    if skip >= |catalogue| then []
    else if skip + limit <= |catalogue| then catalogue[skip..skip + limit]
    else catalogue[skip..]
  }

  /** The whole handler once the count and the query are known. A page that
      stays negative gives a negative skip, which MongoDB rejects; the
      handler forwards that error. */
  function Paginate(q: PageQuery, catalogue: seq<Product>): (r: Result<PageView>)
    ensures r.Failure? <==> CurrentPage(q) < 0
    ensures r.Success? ==>
      var v := r.value;
      && v.currentPage >= 1
      && (q.Number? && q.n > 0 ==> v.currentPage == q.n)
      && (!q.Number? || q.n == 0 ==> v.currentPage == 1)
      && v.lastPage == LastPage(|catalogue|)
      && (v.hasNextPage <==> v.currentPage < v.lastPage)
      && (v.hasPrevPage <==> v.currentPage > 1)
      && v.nextPage == v.currentPage + 1
      && v.prevPage == v.currentPage - 1
      && |v.prods| <= PerPage
      && (v.hasNextPage ==> |v.prods| == PerPage)
      && (v.prods != [] ==> (v.currentPage - 1) * PerPage + |v.prods| <= |catalogue|)
      && (forall i :: 0 <= i < |v.prods| ==>
            v.prods[i] == catalogue[(v.currentPage - 1) * PerPage + i])
  {
    var currentPage := CurrentPage(q);
    var totalProducts := |catalogue|;
    if currentPage < 0 then
      Failure(DatabaseError("skip value must be non-negative"))
    else
      HasNextPageIffBeforeLastPage(currentPage, totalProducts);
      Success(PageView(
        prods := Window(catalogue, (currentPage - 1) * PerPage, PerPage),
        currentPage := currentPage,
        hasNextPage := PerPage * currentPage < totalProducts,
        hasPrevPage := currentPage > 1,
        nextPage := currentPage + 1,
        prevPage := currentPage - 1,
        lastPage := LastPage(totalProducts)))
  }

  /** For any page from 1 on, `perPage * currentPage < totalProducts` says
      exactly that some later page exists. */
  lemma HasNextPageIffBeforeLastPage(currentPage: int, total: nat)
    requires currentPage >= 1
    ensures PerPage * currentPage < total <==> currentPage < LastPage(total)
  {
    var l := LastPage(total);
    if currentPage < l {
      assert PerPage * currentPage <= PerPage * (l - 1);
    }
  }

  /** A page past the last one is empty and offers no next page. */
  lemma {:induction false} PastLastPageIsEmpty(q: PageQuery, catalogue: seq<Product>)
    requires CurrentPage(q) > LastPage(|catalogue|)
    ensures Paginate(q, catalogue).Success?
    ensures Paginate(q, catalogue).value.prods == []
    ensures !Paginate(q, catalogue).value.hasNextPage
  {
    var c := CurrentPage(q);
    var l := LastPage(|catalogue|);
    assert (c - 1) * PerPage >= l * PerPage >= |catalogue|;
  }

  /** Every product is shown: the one at index `i` of the catalogue is item
      `i % 6` of page `i / 6 + 1`. */
  lemma {:induction false} EveryProductIsOnItsPage(catalogue: seq<Product>, i: nat)
    requires i < |catalogue|
    ensures var r := Paginate(Number(i / PerPage + 1), catalogue);
      && r.Success?
      && i % PerPage < |r.value.prods|
      && r.value.prods[i % PerPage] == catalogue[i]
  {
    var page := i / PerPage + 1;
    var skip := (page - 1) * PerPage;
    assert skip + i % PerPage == i;
  }
}
