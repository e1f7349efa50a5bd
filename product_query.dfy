/** The product listing of `getAllWithPagination` (src/models/product.model.ts): the query
    constraints built from the options, the count query, and the page assembled from the
    documents the query returned. The document database itself is not modelled: the fetched
    documents and the count are inputs. */
module ProductQuery {
  import opened Wrappers
  import opened Types
  import opened Strings

  datatype Value = Text(s: string) | Number(r: real) | Flag(b: bool)

  datatype Op = Eq | AtLeast | AtMost

  /** A Firestore query constraint: `where`, `orderBy`, `startAfter` or `limit`. */
  datatype Constraint =
    | Where(field: Field, op: Op, value: Value)
    | OrderBy(sortField: string, direction: string)
    | StartAfter(docId: string)
    | Limit(count: int)

  /** The query the count is taken over: the bare collection, or the collection narrowed by
      constraints. */
  datatype CountQuery = WholeCollection | Narrowed(constraints: seq<Constraint>)

  /** The document fields a `where` clause can name. */
  datatype Field = Category | Brand | IsActive | Price | Rating | Name {
    /** The field path as written in the query. */
    function Path(): string {
      match this
      case Category => "category"
      case Brand => "brand"
      case IsActive => "isActive"
      case Price => "price"
      case Rating => "rating"
      case Name => "name"
    }
  }

  // ---------------------------------------------------------------- the clauses, declaratively

  /** A clause when its filter is present, nothing otherwise. */
  function Opt(present: bool, c: Constraint): (r: seq<Constraint>)
    ensures |r| == if present then 1 else 0
    ensures forall x :: x in r <==> present && x == c
  {
    if present then [c] else []
  }

  function CategoryClause(f: ProductFilters): seq<Constraint> {
    Opt(Truthy(f.category), Where(Category, Eq, Text(f.category.GetOr(""))))
  }
  function BrandClause(f: ProductFilters): seq<Constraint> {
    Opt(Truthy(f.brand), Where(Brand, Eq, Text(f.brand.GetOr(""))))
  }
  function ActiveClause(f: ProductFilters): seq<Constraint> {
    Opt(f.isActive.Some?, Where(IsActive, Eq, Flag(f.isActive.GetOr(false))))
  }
  function MinPriceClause(f: ProductFilters): seq<Constraint> {
    Opt(f.minPrice.Some?, Where(Price, AtLeast, Number(f.minPrice.GetOr(0.0))))
  }
  function MaxPriceClause(f: ProductFilters): seq<Constraint> {
    Opt(f.maxPrice.Some?, Where(Price, AtMost, Number(f.maxPrice.GetOr(0.0))))
  }
  function MinRatingClause(f: ProductFilters): seq<Constraint> {
    Opt(f.minRating.Some?, Where(Rating, AtLeast, Number(f.minRating.GetOr(0.0))))
  }

  /** No filter present. */
  predicate NoFilterPresent(f: ProductFilters) {
    !Truthy(f.category) && !Truthy(f.brand) && f.isActive.None?
    && f.minPrice.None? && f.maxPrice.None? && f.minRating.None?
  }

  /** The equality and range clauses of the filters that are present, one per filter, in the
      order category, brand, isActive, minPrice, maxPrice, minRating. */
  function FilterClauses(f: ProductFilters): (r: seq<Constraint>)
    ensures forall c :: c in r ==> c.Where? && c.field != Name
    ensures r == [] <==> NoFilterPresent(f)
  {
    CategoryClause(f) + BrandClause(f) + ActiveClause(f)
    + MinPriceClause(f) + MaxPriceClause(f) + MinRatingClause(f)
  }

  lemma FilterClausesMembers(f: ProductFilters)
    ensures forall x :: x in FilterClauses(f) <==>
      x in CategoryClause(f) || x in BrandClause(f) || x in ActiveClause(f)
      || x in MinPriceClause(f) || x in MaxPriceClause(f) || x in MinRatingClause(f)
  {
  }

  /** An equality clause is emitted exactly when its filter is present, and carries the
      filter's value. */
  lemma EqualityClausesExact(f: ProductFilters, v: Value)
    ensures Where(Category, Eq, v) in FilterClauses(f) <==> Truthy(f.category) && v == Text(f.category.value)
    ensures Where(Brand, Eq, v) in FilterClauses(f) <==> Truthy(f.brand) && v == Text(f.brand.value)
    ensures Where(IsActive, Eq, v) in FilterClauses(f) <==> f.isActive.Some? && v == Flag(f.isActive.value)
  {
    FilterClausesMembers(f);
  }

  /** A range clause is emitted exactly when its bound is present, and carries the bound. */
  lemma RangeClausesExact(f: ProductFilters, v: Value)
    ensures Where(Price, AtLeast, v) in FilterClauses(f) <==> f.minPrice.Some? && v == Number(f.minPrice.value)
    ensures Where(Price, AtMost, v) in FilterClauses(f) <==> f.maxPrice.Some? && v == Number(f.maxPrice.value)
    ensures Where(Rating, AtLeast, v) in FilterClauses(f) <==> f.minRating.Some? && v == Number(f.minRating.value)
  {
    FilterClausesMembers(f);
  }

  /** The prefix range on `name` for a search term: `[term, term + maxChar]`. */
  function SearchClauses(f: ProductFilters, maxChar: char): (r: seq<Constraint>)
    ensures |r| == if Truthy(f.search) then 2 else 0
    ensures forall c :: c in r ==> c.Where? && c.field == Name
  {
    if Truthy(f.search) then
      [Where(Name, AtLeast, Text(f.search.value)), Where(Name, AtMost, Text(f.search.value + [maxChar]))]
    else []
  }

  /** The cursor clause: present only for a given cursor naming an existing document. */
  function CursorClause(startAfter: Option<string>, docIds: set<string>): (r: seq<Constraint>)
    ensures |r| <= 1
    ensures forall c :: c in r ==> c.StartAfter?
  {
    if Truthy(startAfter) && startAfter.value in docIds then [StartAfter(startAfter.value)] else []
  }

  /** The ordering, cursor and limit clauses that close the page query: one more document
      than a page is fetched. */
  function PagingClauses(opts: PaginationOptions, docIds: set<string>): (r: seq<Constraint>)
    ensures |r| >= 2 && r[0] == OrderBy(opts.sortBy, opts.order) && r[|r| - 1] == Limit(opts.limit + 1)
    ensures forall k :: 0 <= k < |r| ==> !r[k].Where?
    ensures forall k :: 1 <= k < |r| ==> !r[k].OrderBy?
    ensures forall k :: 0 <= k < |r| - 1 ==> !r[k].Limit?
  {
    [OrderBy(opts.sortBy, opts.order)] + CursorClause(opts.startAfter, docIds) + [Limit(opts.limit + 1)]
  }

  /** The constraints of the page query. */
  function PageConstraints(opts: PaginationOptions, maxChar: char, docIds: set<string>): seq<Constraint> {
    FilterClauses(opts.filters) + SearchClauses(opts.filters, maxChar) + PagingClauses(opts, docIds)
  }

  /** `countConstraints.length > 0 ? query(productCollection, ...countConstraints) : productCollection` */
  function CountQueryOf(cs: seq<Constraint>): (q: CountQuery)
    ensures q == WholeCollection <==> cs == []
  {
    if |cs| > 0 then Narrowed(cs) else WholeCollection
  }

  predicate NameClause(c: Constraint) {
    c.Where? && c.field == Name
  }

  // ---------------------------------------------------------------- the clauses, as pushed

  /** The limit clause fetches one more than a page and comes last, and only there. */
  predicate LimitLast(cs: seq<Constraint>, opts: PaginationOptions) {
    |cs| >= 1 && cs[|cs| - 1] == Limit(opts.limit + 1)
    && (forall k :: 0 <= k < |cs| - 1 ==> !cs[k].Limit?)
  }

  /** `cs[k]` is the ordering clause, every clause before it is a filter, none after it is. */
  predicate OrderedAt(cs: seq<Constraint>, k: int, opts: PaginationOptions) {
    0 <= k < |cs| && cs[k] == OrderBy(opts.sortBy, opts.order)
    && (forall j :: 0 <= j < k ==> cs[j].Where?)
    && (forall j :: k < j < |cs| ==> !cs[j].Where? && !cs[j].OrderBy?)
  }

  /** The only clauses on `name` are the two range clauses of a search term. */
  ghost predicate SearchRangeOnly(cs: seq<Constraint>, f: ProductFilters, maxChar: char) {
    (forall c :: c in cs && NameClause(c) ==>
       Truthy(f.search)
       && (c == Where(Name, AtLeast, Text(f.search.value))
           || c == Where(Name, AtMost, Text(f.search.value + [maxChar]))))
    && (Truthy(f.search) ==>
          Where(Name, AtLeast, Text(f.search.value)) in cs
          && Where(Name, AtMost, Text(f.search.value + [maxChar])) in cs)
  }

  /** The cursor clause is there exactly for a cursor naming a stored document. */
  ghost predicate CursorOnlyWhenKnown(cs: seq<Constraint>, startAfter: Option<string>, docIds: set<string>) {
    forall id :: StartAfter(id) in cs <==> Truthy(startAfter) && startAfter.value in docIds && id == startAfter.value
  }

  lemma PageConstraintsLimitLast(opts: PaginationOptions, maxChar: char, docIds: set<string>)
    ensures LimitLast(PageConstraints(opts, maxChar, docIds), opts)
  {
    var init := FilterClauses(opts.filters) + SearchClauses(opts.filters, maxChar);
    var pc := PagingClauses(opts, docIds);
    var cs := init + pc;
    assert forall k :: 0 <= k < |init| ==> init[k] in init && cs[k] == init[k];
    assert forall k :: |init| <= k < |cs| ==> cs[k] == pc[k - |init|];
  }

  lemma PageConstraintsOrdered(opts: PaginationOptions, maxChar: char, docIds: set<string>)
    ensures exists k :: OrderedAt(PageConstraints(opts, maxChar, docIds), k, opts)
  {
    var before := FilterClauses(opts.filters) + SearchClauses(opts.filters, maxChar);
    var pc := PagingClauses(opts, docIds);
    var cs := before + pc;
    var k := |before|;
    assert cs == PageConstraints(opts, maxChar, docIds);
    assert forall j :: 0 <= j < k ==> cs[j] == before[j] && before[j] in before;
    assert forall j :: k <= j < |cs| ==> cs[j] == pc[j - k];
    assert OrderedAt(cs, k, opts);
  }

  lemma PageConstraintsSearchRange(opts: PaginationOptions, maxChar: char, docIds: set<string>)
    ensures SearchRangeOnly(PageConstraints(opts, maxChar, docIds), opts.filters, maxChar)
  {
    var fc, sc := FilterClauses(opts.filters), SearchClauses(opts.filters, maxChar);
    var pc := PagingClauses(opts, docIds);
    assert forall c :: c in pc ==> !c.Where?;
    assert forall c :: c in fc + sc + pc <==> c in fc || c in sc || c in pc;
  }

  lemma PageConstraintsCursor(opts: PaginationOptions, maxChar: char, docIds: set<string>)
    ensures CursorOnlyWhenKnown(PageConstraints(opts, maxChar, docIds), opts.startAfter, docIds)
  {
    var init := FilterClauses(opts.filters) + SearchClauses(opts.filters, maxChar);
    var cur := CursorClause(opts.startAfter, docIds);
    assert forall c :: c in init ==> !c.StartAfter?;
    assert forall c :: c in PagingClauses(opts, docIds) <==>
      c == OrderBy(opts.sortBy, opts.order) || c in cur || c == Limit(opts.limit + 1);
  }

  /** Pushes the constraints of the page query one by one, as `getAllWithPagination` does.
      `docIds` are the ids of the stored products: an unknown cursor adds nothing. */
  method BuildConstraints(opts: PaginationOptions, maxChar: char, docIds: set<string>)
    returns (cs: seq<Constraint>)
    ensures cs == PageConstraints(opts, maxChar, docIds)
  {
    var f := opts.filters;
    cs := PushFilterClauses(f);
    assert cs == FilterClauses(f);
    if Truthy(f.search) {
      var searchTerm := f.search.value;
      cs := cs + [Where(Name, AtLeast, Text(searchTerm))];
      cs := cs + [Where(Name, AtMost, Text(searchTerm + [maxChar]))];
    }
    assert cs == FilterClauses(f) + SearchClauses(f, maxChar);
    var init := cs;
    cs := cs + [OrderBy(opts.sortBy, opts.order)];
    if Truthy(opts.startAfter) {
      if opts.startAfter.value in docIds {
        cs := cs + [StartAfter(opts.startAfter.value)];
      }
    }
    cs := cs + [Limit(opts.limit + 1)];
    assert cs == init + PagingClauses(opts, docIds);
  }

  /** The six `if (filter) constraints.push(where(...))` steps, which the page query and the
      count query both run. */
  method PushFilterClauses(f: ProductFilters) returns (cs: seq<Constraint>)
    ensures cs == FilterClauses(f)
  {
    cs := [];
    if Truthy(f.category) {
      cs := cs + [Where(Category, Eq, Text(f.category.value))];
    }
    assert cs == CategoryClause(f);
    if Truthy(f.brand) {
      cs := cs + [Where(Brand, Eq, Text(f.brand.value))];
    }
    assert cs == CategoryClause(f) + BrandClause(f);
    if f.isActive.Some? {
      cs := cs + [Where(IsActive, Eq, Flag(f.isActive.value))];
    }
    assert cs == CategoryClause(f) + BrandClause(f) + ActiveClause(f);
    if f.minPrice.Some? {
      cs := cs + [Where(Price, AtLeast, Number(f.minPrice.value))];
    }
    assert cs == CategoryClause(f) + BrandClause(f) + ActiveClause(f) + MinPriceClause(f);
    if f.maxPrice.Some? {
      cs := cs + [Where(Price, AtMost, Number(f.maxPrice.value))];
    }
    assert cs == CategoryClause(f) + BrandClause(f) + ActiveClause(f) + MinPriceClause(f) + MaxPriceClause(f);
    if f.minRating.Some? {
      cs := cs + [Where(Rating, AtLeast, Number(f.minRating.value))];
    }

  }

  /** Pushes the constraints of the count query: the filter clauses again, with no search,
      ordering, cursor or limit clause. */
  method BuildCountConstraints(f: ProductFilters) returns (cs: seq<Constraint>)
    ensures cs == FilterClauses(f)
    ensures forall c :: c in cs ==> c.Where? && !NameClause(c)
    ensures CountQueryOf(cs) == WholeCollection <==> NoFilterPresent(f)
  {
    cs := PushFilterClauses(f);
  }

  /** The count query leaves out exactly the search, ordering, cursor and limit clauses of the
      page query: the page constraints are the count constraints followed by those. */
  lemma CountIsPageWithoutSearchAndPaging(opts: PaginationOptions, maxChar: char, docIds: set<string>)
    ensures var page := PageConstraints(opts, maxChar, docIds);
            var count := FilterClauses(opts.filters);
            && page[..|count|] == count
            && (forall c :: c in page[|count|..] ==> NameClause(c) || !c.Where?)
            && (forall c :: c in count ==> !NameClause(c) && c.Where?)
  {
    var count, search := FilterClauses(opts.filters), SearchClauses(opts.filters, maxChar);
    var paging := PagingClauses(opts, docIds);
    Halves(count, search + paging);
    assert count + search + paging == count + (search + paging);
    assert forall c :: c in paging ==> !c.Where?;
  }

  lemma Halves<T>(a: seq<T>, b: seq<T>)
    ensures (a + b)[..|a|] == a && (a + b)[|a|..] == b
  {
  }

  // ---------------------------------------------------------------- the page

  function Min(a: int, b: int): int {
    if a <= b then a else b
  }

  /** `snapshot.docs.slice(0, limit).forEach(doc => products.push({id: doc.id, ...doc.data()}))`
      for a non-negative limit. */
  method CollectPage(docs: seq<Product>, limit: nat) returns (products: seq<Product>)
    ensures products == docs[..Min(limit, |docs|)]
  {
    var n := Min(limit, |docs|);
    products := [];
    var i := 0;
    while i < n
      invariant 0 <= i <= n
      invariant products == docs[..i]
    {
      var doc := docs[i];
      products := products + [Product(doc.id, doc.data)];
      i := i + 1;
    }
  }

  /** The client-side search test: the lowercased term occurs in the lowercased name, or in the
      lowercased description when there is one. `lower` stands for `toLowerCase`. */
  predicate MatchesSearch(p: Product, term: string, lower: string -> string) {
    var needle := lower(term);
    Contains(lower(p.data.name), needle)
    || (p.data.description != "" && Contains(lower(p.data.description), needle))
  }

  /** `products.filter(p => MatchesSearch(p))`. */
  function FilterBySearch(ps: seq<Product>, term: string, lower: string -> string): (r: seq<Product>)
    ensures |r| <= |ps|
  {
    if ps == [] then []
    else
      var rest := FilterBySearch(ps[1..], term, lower);
      if MatchesSearch(ps[0], term, lower) then [ps[0]] + rest else rest
  }

  /** The filter keeps exactly the matching products. */
  lemma {:induction false} FilterBySearchMembers(ps: seq<Product>, term: string, lower: string -> string)
    ensures forall p :: p in FilterBySearch(ps, term, lower) <==> p in ps && MatchesSearch(p, term, lower)
    decreases |ps|
  {
    if ps != [] {
      FilterBySearchMembers(ps[1..], term, lower);
      assert forall p :: p in ps <==> p == ps[0] || p in ps[1..];
    }
  }

  /** The filter keeps the order of the products it keeps: it distributes over concatenation. */
  lemma {:induction false} FilterBySearchAppend(a: seq<Product>, b: seq<Product>, term: string, lower: string -> string)
    ensures FilterBySearch(a + b, term, lower) == FilterBySearch(a, term, lower) + FilterBySearch(b, term, lower)
    decreases |a|
  {
    if a == [] {
      assert a + b == b;
    } else {
      assert (a + b)[0] == a[0] && (a + b)[1..] == a[1..] + b;
      FilterBySearchAppend(a[1..], b, term, lower);
      var fa, fb := FilterBySearch(a[1..], term, lower), FilterBySearch(b, term, lower);
      if MatchesSearch(a[0], term, lower) {
        assert [a[0]] + (fa + fb) == ([a[0]] + fa) + fb;
      }
    }
  }

  /** The filter keeps every matching product as often as it occurs, and drops the others. */
  lemma {:induction false} FilterBySearchCounts(ps: seq<Product>, term: string, lower: string -> string, p: Product)
    ensures multiset(FilterBySearch(ps, term, lower))[p] == if MatchesSearch(p, term, lower) then multiset(ps)[p] else 0
    decreases |ps|
  {
    if ps != [] {
      FilterBySearchCounts(ps[1..], term, lower, p);
      assert ps == [ps[0]] + ps[1..];
    }
  }

  /** The `nextCursor` rule: the id of the last returned product when there is a next page and
      something was returned. */
  function NextCursor(hasNext: bool, products: seq<Product>): (r: Option<string>)
    ensures r.Some? <==> hasNext && products != []
    ensures r.Some? ==> r.value == products[|products| - 1].id
  {
    if hasNext && |products| > 0 then Some(products[|products| - 1].id) else None
  }

  /** The TypeScript page: the first `limit` fetched documents, narrowed by the search test
      when a term is given, with `hasNext` telling whether more than `limit` came back. */
  function PageOf(fetched: seq<Product>, limit: nat, search: Option<string>,
                  lower: string -> string, total: nat): (r: PaginatedResult)
  {
    var page := fetched[..Min(limit, |fetched|)];
    var products := if Truthy(search) then FilterBySearch(page, search.value, lower) else page;
    var hasNext := |fetched| > limit;
    PaginatedResult(products, total, hasNext, NextCursor(hasNext, products))
  }

  /** What a page promises: `hasNext` exactly when more than `limit` documents were fetched;
      at most `limit` products; without a search term the fetched prefix unchanged, with one the
      matching products of that prefix in their order; the cursor is the last returned id. */
  lemma PageOfSpec(fetched: seq<Product>, limit: nat, search: Option<string>,
                   lower: string -> string, total: nat)
    ensures var r := PageOf(fetched, limit, search, lower, total);
            && r.total == total
            && (r.hasNext <==> |fetched| > limit)
            && |r.products| <= limit
            && (!Truthy(search) ==> r.products == fetched[..Min(limit, |fetched|)])
            && (Truthy(search) ==> forall p :: p in r.products <==>
                  p in fetched[..Min(limit, |fetched|)] && MatchesSearch(p, search.value, lower))
            && (r.nextCursor.Some? <==> r.hasNext && r.products != [])
            && (r.nextCursor.Some? ==> r.nextCursor.value == r.products[|r.products| - 1].id)
  {
    if Truthy(search) {
      FilterBySearchMembers(fetched[..Min(limit, |fetched|)], search.value, lower);
    }
  }

  /** The returned products never outnumber the requested page, with or without a search. */
  lemma {:induction false} PageNeverExceedsLimit(fetched: seq<Product>, limit: nat, search: Option<string>,
                                                 lower: string -> string, total: nat)
    ensures |PageOf(fetched, limit, search, lower, total).products| <= limit
  {
  }
}
