/** The older listing of src/models/product.model.js. It builds the same constraints as the
    TypeScript version, and when a search term is given it then tests every constraint with
    `c.type === "where" && c.field.segments.includes("name")`. The constraint objects of the
    modular database client keep their field path in a private property and have no `field`,
    so the test throws at the first `where` clause it meets, and a searched listing fails. */
module ProductModelJs {
  import opened Wrappers
  import opened Types
  import opened Strings
  import opened ProductQuery
  import opened ProductStore

  /** The message of the `TypeError` raised by reading `segments` of `undefined`, as Node
      words it. */
  const SEGMENTS_UNREADABLE: string := "Cannot read properties of undefined (reading 'segments')"

  /** `c.type === "where" && c.field.segments.includes("name")` on one constraint: false for
      a constraint of another type, a throw for a `where`, which has no `field`. */
  function NameTest(c: Constraint): Result<bool> {
    if c.Where? then Failure(SEGMENTS_UNREADABLE) else Success(false)
  }

  /** `constraints.some(test)`: the first test that holds or throws decides. */
  function SomeNameClause(cs: seq<Constraint>): (r: Result<bool>)
    ensures r.Failure? <==> exists k :: 0 <= k < |cs| && cs[k].Where?
    ensures r.Failure? ==> r.message == SEGMENTS_UNREADABLE
    ensures r.Success? ==> !r.value
  {
    if cs == [] then Success(false)
    else
      match NameTest(cs[0])
      case Failure(m) => Failure(m)
      case Success(b) =>
        if b then Success(true)
        else
          var rest := SomeNameClause(cs[1..]);
          assert forall k :: 1 <= k < |cs| ==> cs[k] == cs[1..][k - 1];
          rest
  }

  /** `filters.search && !constraints.some(...)`: the test runs only for a search term. */
  function SearchGuard(search: Option<string>, cs: seq<Constraint>): Result<bool> {
    if !Truthy(search) then Success(false)
    else
      match SomeNameClause(cs)
      case Failure(m) => Failure(m)
      case Success(b) => Success(!b)
  }

  /** With a search term the guard throws, since the pushed constraints then hold its `name`
      range clauses, which are `where` clauses; without one it is false, so the client-side
      filter never runs. */
  lemma {:induction false} SearchGuardThrows(opts: PaginationOptions, maxChar: char, docIds: set<string>)
    ensures Truthy(opts.filters.search) ==>
      SearchGuard(opts.filters.search, PageConstraints(opts, maxChar, docIds)) == Failure(SEGMENTS_UNREADABLE)
    ensures !Truthy(opts.filters.search) ==>
      SearchGuard(opts.filters.search, PageConstraints(opts, maxChar, docIds)) == Success(false)
  {
    var cs := PageConstraints(opts, maxChar, docIds);
    if Truthy(opts.filters.search) {
      PageConstraintsSearchRange(opts, maxChar, docIds);
      var c := Where(Name, AtLeast, Text(opts.filters.search.value));
      assert c in cs;
      var k :| 0 <= k < |cs| && cs[k] == c;
      assert cs[k].Where?;
    }
  }

  /** `getAllWithPagination` of the `.js` model over the same product table: a limit the
      database rejects fails as in the TypeScript version; a search term fails with the
      guard's `TypeError`; any other listing is the TypeScript page of the same fetch and
      count, the fetched prefix unfiltered. */
  method GetAllWithPaginationJs(table: ProductTable, opts: PaginationOptions, maxChar: char,
                                lower: string -> string, fetch: seq<Constraint> -> seq<Product>,
                                count: CountQuery -> nat)
    returns (r: Result<PaginatedResult>)
    ensures opts.limit < 0 ==> r == Failure(PAGINATION_ERROR + LimitRejected(opts.limit + 1))
    ensures opts.limit >= 0 && Truthy(opts.filters.search) ==>
      r == Failure(PAGINATION_ERROR + SEGMENTS_UNREADABLE)
    ensures opts.limit >= 0 && !Truthy(opts.filters.search) ==>
      var fetched := fetch(PageConstraints(opts, maxChar, table.docs.Keys));
      && r == Success(PageOf(fetched, opts.limit, opts.filters.search, lower,
                             count(CountQueryOf(FilterClauses(opts.filters)))))
      && r.value.products == fetched[..Min(opts.limit, |fetched|)]
  {
    var constraints := BuildConstraints(opts, maxChar, table.docs.Keys);
    if opts.limit < 0 {
      return Failure(PAGINATION_ERROR + LimitRejected(opts.limit + 1));
    }
    var limit: nat := opts.limit;
    var snapshot := fetch(constraints);
    var countConstraints := BuildCountConstraints(opts.filters);
    var totalQuery := WholeCollection;
    if |countConstraints| > 0 {
      totalQuery := Narrowed(countConstraints);
    }
    var total := count(totalQuery);
    var hasNext := |snapshot| > limit;
    var products := CollectPage(snapshot, limit);
    var filteredProducts := products;
    SearchGuardThrows(opts, maxChar, table.docs.Keys);
    var guard := SearchGuard(opts.filters.search, constraints);
    if guard.Failure? {
      return Failure(PAGINATION_ERROR + guard.message);
    }
    if guard.value {
      filteredProducts := FilterBySearch(products, opts.filters.search.GetOr(""), lower);
    }
    var nextCursor := NextCursor(hasNext, filteredProducts);
    r := Success(PaginatedResult(filteredProducts, total, hasNext, nextCursor));
  }
}
