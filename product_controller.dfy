/** The product handlers of src/controllers/product.controller.ts: reading the listing's query
    string into pagination options, the pagination fields of the reply, and the required-field
    check and defaults of single and bulk creation. */
module ProductController {
  import opened Wrappers
  import opened Types
  import opened Strings
  import opened JsNumbers
  import opened ProductQuery
  import opened ProductStore

  const DEFAULT_LIMIT: int := 10
  const MAX_LIMIT: int := 100
  const DEFAULT_PAGE: int := 1
  const DEFAULT_SORT: string := "createdAt"
  const DEFAULT_ORDER: string := "desc"
  const DEFAULT_BRAND: string := "Sin marca"

  // ---------------------------------------------------------------- the listing's options

  /** `Math.min(parseInt(limit) || 10, 100)`, `limit` defaulting to the text "10": an
      unreadable or zero limit becomes 10, a larger one is cut down to 100, a negative one
      stays negative. */
  function ParseLimit(limit: Option<string>): (r: int)
    ensures r != 0 && r <= MAX_LIMIT
  {
    var n := ParseInt(limit.GetOr(NatToString(DEFAULT_LIMIT)));
    var v := if n.None? || n.value == 0 then DEFAULT_LIMIT else n.value;
    Min(v, MAX_LIMIT)
  }

  /** `parseInt(page) || 1`, `page` defaulting to the text "1". */
  function ParsePage(page: Option<string>): (r: int)
    ensures r != 0
  {
    var n := ParseInt(page.GetOr(NatToString(DEFAULT_PAGE)));
    if n.None? || n.value == 0 then DEFAULT_PAGE else n.value
  }

  /** How the limit text is read: the value of a limit of integer text, cut to 100; the default
      for a zero limit and for one `parseInt` cannot read; a negative limit as it is sent, which
      the database later rejects. */
  lemma ParseLimitCases(s: string)
    ensures IsIntText(s) && 1 <= IntTextValue(s) <= MAX_LIMIT ==> ParseLimit(Some(s)) == IntTextValue(s)
    ensures IsIntText(s) && IntTextValue(s) > MAX_LIMIT ==> ParseLimit(Some(s)) == MAX_LIMIT
    ensures IsIntText(s) && IntTextValue(s) == 0 ==> ParseLimit(Some(s)) == DEFAULT_LIMIT
    ensures IsIntText(s) && IntTextValue(s) < 0 ==> ParseLimit(Some(s)) == IntTextValue(s)
    ensures ParseInt(s).None? ==> ParseLimit(Some(s)) == DEFAULT_LIMIT
  {
    if IsIntText(s) {
      ParseIntOfIntText(s);
    }
  }

  lemma ParseLimitDefault()
    ensures ParseLimit(None) == DEFAULT_LIMIT
  {
    ParseIntOfNatToString(DEFAULT_LIMIT);
  }

  /** A page of integer text of at least 1 is read as its value; a missing page is page 1. */
  lemma ParsePageCases(s: string)
    ensures IsIntText(s) && IntTextValue(s) >= 1 ==> ParsePage(Some(s)) == IntTextValue(s)
    ensures ParsePage(None) == DEFAULT_PAGE
  {
    if IsIntText(s) {
      ParseIntOfIntText(s);
    }
    ParseIntOfNatToString(DEFAULT_PAGE);
  }

  /** A truthy text parameter, as `if (param) options.filters.x = param` keeps it. */
  function TruthyText(p: Option<Param>): (r: Option<string>)
    ensures r.Some? <==> Truthy(Raw(p))
    ensures r.Some? ==> r.value == p.value.raw
  {
    if Truthy(Raw(p)) then Raw(p) else None
  }

  /** A truthy numeric parameter, as `parseFloat` reads it. */
  function TruthyNumber(p: Option<Param>): (r: Option<real>)
    ensures r.Some? <==> Truthy(Raw(p)) && p.value.number.Some?
    ensures r.Some? ==> r == p.value.number
  {
    if Truthy(Raw(p)) && p.value.number.Some? then p.value.number else None
  }

  /** The filters read from the query string. */
  function FiltersOf(q: ListingQuery): ProductFilters {
    ProductFilters(
      TruthyText(q.search), TruthyText(q.category), TruthyText(q.brand),
      TruthyNumber(q.minPrice), TruthyNumber(q.maxPrice), TruthyNumber(q.minRating),
      if q.isActive.Some? then Some(q.isActive.value.raw == "true") else None)
  }

  /** The options `getAllProducts` passes to the listing; `lower` stands for `toLowerCase`. */
  function OptionsOf(q: ListingQuery, lower: string -> string): PaginationOptions {
    PaginationOptions(
      ParseLimit(Raw(q.limit)), ParsePage(Raw(q.page)),
      Raw(q.sortBy).GetOr(DEFAULT_SORT), lower(Raw(q.order).GetOr(DEFAULT_ORDER)),
      FiltersOf(q), TruthyText(q.startAfter))
  }

  /** What the options promise: a limit of at most 100 that is never 0, a page that is never
      0; a text filter only for a non-empty parameter; `isActive` whenever the parameter is
      there, true exactly for the text "true"; and an empty query string lists every product
      newest first in pages of 10, counted over the whole collection. */
  lemma OptionsOfSpec(q: ListingQuery, lower: string -> string)
    ensures var o := OptionsOf(q, lower);
            && o.limit != 0 && o.limit <= MAX_LIMIT && o.page != 0
            && (o.filters.search.Some? <==> Truthy(Raw(q.search)))
            && (o.filters.category.Some? <==> Truthy(Raw(q.category)))
            && (o.filters.brand.Some? <==> Truthy(Raw(q.brand)))
            && (o.filters.isActive.Some? <==> q.isActive.Some?)
            && (o.filters.isActive == Some(true) <==> q.isActive.Some? && q.isActive.value.raw == "true")
            && (o.startAfter.Some? <==> Truthy(Raw(q.startAfter)))
  {
  }

  lemma EmptyQueryOptions(lower: string -> string)
    ensures var empty := ListingQuery(None, None, None, None, None, None, None, None, None, None, None, None);
            var o := OptionsOf(empty, lower);
            && o == PaginationOptions(DEFAULT_LIMIT, DEFAULT_PAGE, DEFAULT_SORT, lower(DEFAULT_ORDER), NoFilters, None)
            && CountQueryOf(FilterClauses(o.filters)) == WholeCollection
  {
    ParseLimitDefault();
    ParsePageCases("");
  }

  /** `getAllProducts` building its options: the fixed fields, then the filters. */
  method BuildOptions(q: ListingQuery, lower: string -> string) returns (options: PaginationOptions)
    ensures options == OptionsOf(q, lower)
  {
    var parsedLimit := ParseLimit(Raw(q.limit));
    var parsedPage := ParsePage(Raw(q.page));
    var filters := ReadFilters(q);
    var startAfter := None;
    if Truthy(Raw(q.startAfter)) {
      startAfter := Some(q.startAfter.value.raw);
    }
    options := PaginationOptions(parsedLimit, parsedPage, Raw(q.sortBy).GetOr(DEFAULT_SORT),
                                 lower(Raw(q.order).GetOr(DEFAULT_ORDER)), filters, startAfter);
  }

  /** The `if (param) options.filters.x = ...` steps, one filter at a time. */
  method ReadFilters(q: ListingQuery) returns (filters: ProductFilters)
    ensures filters == FiltersOf(q)
  {
    var search, category, brand := None, None, None;
    var minPrice, maxPrice, minRating := None, None, None;
    var isActive := None;
    if Truthy(Raw(q.search)) {
      search := Some(q.search.value.raw);
    }
    if Truthy(Raw(q.category)) {
      category := Some(q.category.value.raw);
    }
    if Truthy(Raw(q.brand)) {
      brand := Some(q.brand.value.raw);
    }
    if Truthy(Raw(q.minPrice)) && q.minPrice.value.number.Some? {
      minPrice := q.minPrice.value.number;
    }
    if Truthy(Raw(q.maxPrice)) && q.maxPrice.value.number.Some? {
      maxPrice := q.maxPrice.value.number;
    }
    if Truthy(Raw(q.minRating)) && q.minRating.value.number.Some? {
      minRating := q.minRating.value.number;
    }
    if q.isActive.Some? {
      isActive := Some(q.isActive.value.raw == "true");
    }
    filters := ProductFilters(search, category, brand, minPrice, maxPrice, minRating, isActive);
  }

  // ---------------------------------------------------------------- the pagination fields

  /** `Math.ceil(total / limit)` for a positive limit: the fewest pages of `limit` products
      that hold `total` products. */
  function TotalPages(total: nat, limit: int): (r: nat)
    requires limit >= 1
    ensures r * limit >= total
    ensures r > 0 ==> (r - 1) * limit < total
  {
    (total + limit - 1) / limit
  }

  datatype Pagination = Pagination(
    total: nat, page: int, limit: int, totalPages: nat,
    hasNext: bool, hasPrev: bool, nextCursor: Option<string>)

  /** The reply of `GET /products`: 200 with a page, or the status and message of a failure. */
  datatype ListReply =
    | Listed(products: seq<Product>, pagination: Pagination)
    | ListFailed(status: int, error: string)
  {
    function Status(): int {
      if Listed? then 200 else status
    }
  }

  /** `getAllProducts`: a limit the database rejects is a 500; otherwise the page with its
      pagination fields. */
  method GetAllProducts(table: ProductTable, q: ListingQuery, lower: string -> string, maxChar: char,
                        fetch: seq<Constraint> -> seq<Product>, count: CountQuery -> nat)
    returns (reply: ListReply)
    ensures var o := OptionsOf(q, lower);
            o.limit < 0 ==> reply == ListFailed(500, PAGINATION_ERROR + LimitRejected(o.limit + 1))
    ensures var o := OptionsOf(q, lower);
            o.limit > 0 ==>
              var page := PageOf(fetch(PageConstraints(o, maxChar, table.docs.Keys)), o.limit, o.filters.search,
                                 lower, count(CountQueryOf(FilterClauses(o.filters))));
              reply == Listed(page.products, Pagination(page.total, o.page, o.limit, TotalPages(page.total, o.limit),
                                                        page.hasNext, o.page > 1, page.nextCursor))
  {
    var options := BuildOptions(q, lower);
    var result := table.GetAllWithPagination(options, maxChar, lower, fetch, count);
    if result.Failure? {
      return ListFailed(500, result.message);
    }
    var page := result.value;
    reply := Listed(page.products,
                    Pagination(page.total, options.page, options.limit, TotalPages(page.total, options.limit),
                               page.hasNext, options.page > 1, page.nextCursor));
  }

  // ---------------------------------------------------------------- single creation

  /** `name`, `price` and `category` are given, `name` and `category` non-empty. */
  predicate IsComplete(item: PartialProduct) {
    Truthy(item.name) && item.price.Some? && Truthy(item.category)
  }

  /** The product stored for a complete request body: the given fields, and the defaults for
      the others. */
  function WithDefaults(item: PartialProduct, now: string): (d: ProductData)
    requires IsComplete(item)
    ensures d.name == item.name.value && d.price == item.price.value && d.category == item.category.value
    ensures d.createdAt == now && d.updatedAt.None? && d.storedId.None?
  {
    ProductData(
      item.name.value, OrElse(item.description, ""), item.price.value, OrElse(item.image, ""),
      item.category.value, item.stock.GetOr(0), item.rating.GetOr(0.0),
      OrElse(item.brand, DEFAULT_BRAND), item.isActive.GetOr(true), now, None, None)
  }

  /** A product given in full as a request body. */
  function AsBody(d: ProductData): PartialProduct {
    PartialProduct(Some(d.name), Some(d.description), Some(d.price), Some(d.image), Some(d.category),
                   Some(d.stock), Some(d.rating), Some(d.brand), Some(d.isActive), None, None)
  }

  /** Sending a product in full stores it as it was sent; sending only the required fields
      stores the defaults: empty description and image, no stock, rating 0, brand "Sin marca",
      active. */
  lemma WithDefaultsSpec(d: ProductData, name: string, price: real, category: string, now: string)
    requires d.name != "" && d.category != "" && d.brand != ""
    requires name != "" && category != ""
    ensures IsComplete(AsBody(d)) && WithDefaults(AsBody(d), d.createdAt) == d.(updatedAt := None, storedId := None)
    ensures var bare := PartialProduct(Some(name), None, Some(price), None, Some(category), None, None, None, None, None, None);
            WithDefaults(bare, now) == ProductData(name, "", price, "", category, 0, 0.0, DEFAULT_BRAND, true, now, None, None)
  {
  }

  datatype CreateReply = Created(product: ProductData) | MissingFields {
    function Status(): int {
      if Created? then 201 else 400
    }
  }

  /** `createProduct`: an incomplete body is a 400 and stores nothing; a complete one is
      stored, with its defaults, under a new id. */
  method CreateProduct(table: ProductTable, body: PartialProduct, now: string, newId: string)
    returns (reply: CreateReply)
    requires newId !in table.docs
    modifies table
    ensures !IsComplete(body) ==> reply == MissingFields && table.docs == old(table.docs)
    ensures IsComplete(body) ==>
      reply == Created(WithDefaults(body, now)) && table.docs == old(table.docs)[newId := WithDefaults(body, now)]
  {
    if !IsComplete(body) {
      return MissingFields;
    }
    var product := WithDefaults(body, now);
    var _ := table.CreateProduct(product, newId);
    reply := Created(product);
  }

  // ---------------------------------------------------------------- bulk creation

  /** The products created from the complete items, in order. */
  function ValidItems(items: seq<PartialProduct>, now: string): seq<ProductData> {
    if items == [] then []
    else
      var last := items[|items| - 1];
      ValidItems(items[..|items| - 1], now) + (if IsComplete(last) then [WithDefaults(last, now)] else [])
  }

  /** The incomplete items, in order. */
  function InvalidItems(items: seq<PartialProduct>): seq<PartialProduct> {
    if items == [] then []
    else
      var last := items[|items| - 1];
      InvalidItems(items[..|items| - 1]) + (if IsComplete(last) then [] else [last])
  }

  /** Every item lands on exactly one side. */
  lemma {:induction false} PartitionSizes(items: seq<PartialProduct>, now: string)
    ensures |ValidItems(items, now)| + |InvalidItems(items)| == |items|
    decreases |items|
  {
    if items != [] {
      PartitionSizes(items[..|items| - 1], now);
    }
  }

  /** The invalid side holds exactly the incomplete items; the valid side holds the defaulted
      form of each complete item and nothing else. */
  lemma {:induction false} PartitionMembers(items: seq<PartialProduct>, now: string)
    ensures forall x :: x in InvalidItems(items) <==> x in items && !IsComplete(x)
    ensures forall x :: x in items && IsComplete(x) ==> WithDefaults(x, now) in ValidItems(items, now)
    ensures forall d :: d in ValidItems(items, now) ==>
              exists x :: x in items && IsComplete(x) && d == WithDefaults(x, now)
    decreases |items|
  {
    if items != [] {
      var init, last := items[..|items| - 1], items[|items| - 1];
      PartitionMembers(init, now);
      assert items == init + [last];
      assert forall x :: x in items <==> x in init || x == last;
    }
  }

  /** The `for (const item of products)` loop pushing each item to one of the two lists. */
  method Partition(items: seq<PartialProduct>, now: string)
    returns (valid: seq<ProductData>, invalid: seq<PartialProduct>)
    ensures valid == ValidItems(items, now) && invalid == InvalidItems(items)
  {
    valid, invalid := [], [];
    var i := 0;
    while i < |items|
      invariant 0 <= i <= |items|
      invariant valid == ValidItems(items[..i], now) && invalid == InvalidItems(items[..i])
    {
      var item := items[i];
      assert items[..i + 1][..i] == items[..i];
      if !IsComplete(item) {
        invalid := invalid + [item];
      } else {
        valid := valid + [WithDefaults(item, now)];
      }
      i := i + 1;
    }
    assert items[..|items|] == items;
  }

  datatype BulkReply =
    | NotAnArray
    | NoValidProduct(invalidProducts: seq<PartialProduct>)
    | BulkCreated(createdCount: nat, invalidCount: nat, message: string)
  {
    function Status(): int {
      if BulkCreated? then 201 else 400
    }
  }

  /** `createManyProducts`: a body that is not a non-empty array, or holds no complete item, is
      a 400 and stores nothing; otherwise the complete items are stored, with their defaults,
      under new ids, and the counts of both sides are reported. */
  method CreateManyProducts(table: ProductTable, body: Option<seq<PartialProduct>>, now: string, newIds: seq<string>)
    returns (reply: BulkReply)
    requires body.Some? ==> |newIds| >= |body.value|
    requires forall i, j :: 0 <= i < j < |newIds| ==> newIds[i] != newIds[j]
    requires forall i :: 0 <= i < |newIds| ==> newIds[i] !in table.docs
    modifies table
    ensures (body.None? || body.value == []) ==> reply == NotAnArray && table.docs == old(table.docs)
    ensures body.Some? && body.value != [] && ValidItems(body.value, now) == [] ==>
      reply == NoValidProduct(InvalidItems(body.value)) && table.docs == old(table.docs)
    ensures body.Some? && ValidItems(body.value, now) != [] ==>
      var valid := ValidItems(body.value, now);
      && reply == BulkCreated(|valid|, |InvalidItems(body.value)|, CreatedMany(|valid|))
      && reply.createdCount + reply.invalidCount == |body.value|
      && table.docs.Keys == old(table.docs).Keys + (set i | 0 <= i < |valid| :: newIds[i])
      && (forall i :: 0 <= i < |valid| ==> table.docs[newIds[i]] == valid[i])
      && (forall id :: id in old(table.docs) ==> table.docs[id] == old(table.docs)[id])
  {
    if body.None? || |body.value| == 0 {
      return NotAnArray;
    }
    var valid, invalid := Partition(body.value, now);
    if |valid| == 0 {
      return NoValidProduct(invalid);
    }
    PartitionSizes(body.value, now);
    var message := table.CreateManyProducts(valid, newIds[..|valid|]);
    reply := BulkCreated(|valid|, |invalid|, message);
  }

  // ---------------------------------------------------------------- lookup and deletion

  datatype ItemReply = MissingId | NotFoundReply(id: string) | Found(product: Product) | Removed(message: string) | ItemFailed(status: int, error: string) {
    function Status(): int {
      match this
      case MissingId => 400
      case NotFoundReply(_) => 404
      case Found(_) => 200
      case Removed(_) => 200
      case ItemFailed(status, _) => status
    }
  }

  /** `getProductById`: an empty id is a 400, an unknown one a 404. */
  method GetProductById(table: ProductTable, id: string) returns (reply: ItemReply)
    ensures id == "" ==> reply == MissingId
    ensures id != "" && id !in table.docs ==> reply == NotFoundReply(id)
    ensures id != "" && id in table.docs ==> reply == Found(ReadProduct(id, table.docs[id]))
  {
    if id == "" {
      return MissingId;
    }
    var product := table.GetProductById(id);
    if product.None? {
      return NotFoundReply(id);
    }
    reply := Found(product.value);
  }

  /** `deleteProduct`: an empty id is a 400; an unknown one a 500 carrying the model's
      message, with nothing removed; otherwise the product is removed. */
  method DeleteProduct(table: ProductTable, id: string) returns (reply: ItemReply)
    modifies table
    ensures id == "" ==> reply == MissingId && table.docs == old(table.docs)
    ensures id != "" && id !in old(table.docs) ==>
      reply == ItemFailed(500, DELETE_ERROR + NotFound(id)) && table.docs == old(table.docs)
    ensures id != "" && id in old(table.docs) ==>
      reply == Removed(Deleted(id)) && table.docs == old(table.docs) - {id}
  {
    if id == "" {
      return MissingId;
    }
    var result := table.DeleteProduct(id);
    if result.Failure? {
      return ItemFailed(500, result.message);
    }
    reply := Removed(result.value);
  }
}
