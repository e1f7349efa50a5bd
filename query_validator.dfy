/** The query-string checks in front of `GET /products`
    (src/middlewares/validateQuery.middleware.ts): one rule per parameter, run in the order of
    the chain, each skipped when its parameter is absent; a request with any failing rule is
    answered 400 with one entry per failure; and the cross-check of the price bounds. */
module QueryValidator {
  import opened Wrappers
  import opened Types
  import opened Strings
  import opened JsNumbers
  import opened ProductController

  const SORT_FIELDS: seq<string> := ["name", "price", "createdAt", "category", "rating", "stock", "brand"]
  const ORDERS: seq<string> := ["asc", "desc"]
  /** The texts `isBoolean` accepts in its default, strict mode. */
  const BOOLEAN_TEXTS: seq<string> := ["true", "false", "1", "0"]
  const MAX_SEARCH: int := 100

  const VALIDATION_FAILED: string := "Error de validación en los parámetros"
  const RANGE_FAILED: string := "Error de validación"
  const PRICE_RANGE_ERROR: string := "minPrice no puede ser mayor que maxPrice"

  /** One entry of the error report. */
  datatype FieldError = FieldError(field: string, message: string, value: string)

  /** The rules of the chain, one per query parameter. */
  datatype Rule =
    | LimitRule | PageRule | SortByRule | OrderRule | MinPriceRule | MaxPriceRule | MinRatingRule
    | SearchRule | CategoryRule | BrandRule | IsActiveRule | StartAfterRule
  {
    function Field(): string {
      match this
      case LimitRule => "limit"
      case PageRule => "page"
      case SortByRule => "sortBy"
      case OrderRule => "order"
      case MinPriceRule => "minPrice"
      case MaxPriceRule => "maxPrice"
      case MinRatingRule => "minRating"
      case SearchRule => "search"
      case CategoryRule => "category"
      case BrandRule => "brand"
      case IsActiveRule => "isActive"
      case StartAfterRule => "startAfter"
    }

    function Message(): string {
      match this
      case LimitRule => "limit debe ser un número entre 1 y 100"
      case PageRule => "page debe ser un número mayor o igual a 1"
      case SortByRule => "sortBy debe ser uno de: name, price, createdAt, category, rating, stock, brand"
      case OrderRule => "order debe ser asc o desc"
      case MinPriceRule => "minPrice debe ser un número mayor o igual a 0"
      case MaxPriceRule => "maxPrice debe ser un número mayor o igual a 0"
      case MinRatingRule => "minRating debe ser un número entre 0 y 5"
      case SearchRule => "search debe ser un texto de 1 a 100 caracteres"
      case CategoryRule => "category debe ser un texto válido"
      case BrandRule => "brand debe ser un texto válido"
      case IsActiveRule => "isActive debe ser true o false"
      case StartAfterRule => "startAfter debe ser un ID de documento válido"
    }

    /** The parameter the rule reads. */
    function Of(q: ListingQuery): Option<Param> {
      match this
      case LimitRule => q.limit
      case PageRule => q.page
      case SortByRule => q.sortBy
      case OrderRule => q.order
      case MinPriceRule => q.minPrice
      case MaxPriceRule => q.maxPrice
      case MinRatingRule => q.minRating
      case SearchRule => q.search
      case CategoryRule => q.category
      case BrandRule => q.brand
      case IsActiveRule => q.isActive
      case StartAfterRule => q.startAfter
    }

    /** Whether a present parameter satisfies the rule. A query-string value is always text,
        so the `isString` rules of category, brand and startAfter never fail. */
    predicate Accepts(p: Param) {
      match this
      case LimitRule => IsIntText(p.raw) && 1 <= IntTextValue(p.raw) <= MAX_LIMIT
      case PageRule => IsIntText(p.raw) && IntTextValue(p.raw) >= 1
      case SortByRule => p.raw in SORT_FIELDS
      case OrderRule => p.raw in ORDERS
      case MinPriceRule => p.number.Some? && p.number.value >= 0.0
      case MaxPriceRule => p.number.Some? && p.number.value >= 0.0
      case MinRatingRule => p.number.Some? && 0.0 <= p.number.value <= 5.0
      case SearchRule => 1 <= |Trim(p.raw)| <= MAX_SEARCH
      case CategoryRule => true
      case BrandRule => true
      case IsActiveRule => p.raw in BOOLEAN_TEXTS
      case StartAfterRule => true
    }

    /** The value the report shows: the text as the failing check saw it, which for the
        search is after trimming. */
    function Reported(p: Param): string {
      if this == SearchRule then Trim(p.raw) else p.raw
    }
  }

  /** The chain, in the order the rules are declared. */
  const CHAIN: seq<Rule> := [LimitRule, PageRule, SortByRule, OrderRule, MinPriceRule, MaxPriceRule,
                             MinRatingRule, SearchRule, CategoryRule, BrandRule, IsActiveRule, StartAfterRule]

  /** A rule passes when its parameter is absent (`optional()`) or satisfies it. */
  predicate Passes(rule: Rule, q: ListingQuery) {
    rule.Of(q).None? || rule.Accepts(rule.Of(q).value)
  }

  function ErrorOf(rule: Rule, q: ListingQuery): FieldError
    requires !Passes(rule, q)
  {
    FieldError(rule.Field(), rule.Message(), rule.Reported(rule.Of(q).value))
  }

  /** The error report of a run of `rules`: one entry per failing rule, and nothing else. */
  function Errors(rules: seq<Rule>, q: ListingQuery): (r: seq<FieldError>)
    ensures |r| <= |rules|
    ensures forall rule :: rule in rules && !Passes(rule, q) ==> ErrorOf(rule, q) in r
    ensures forall e :: e in r ==> exists rule :: rule in rules && !Passes(rule, q) && e == ErrorOf(rule, q)
  {
    if rules == [] then []
    else
      var head := if Passes(rules[0], q) then [] else [ErrorOf(rules[0], q)];
      var tail := Errors(rules[1..], q);
      assert forall rule :: rule in rules ==> rule == rules[0] || rule in rules[1..];
      head + tail
  }

  /** The chain has a rule for every parameter. */
  lemma ChainIsComplete(rule: Rule)
    ensures rule in CHAIN
  {
    match rule
    case LimitRule => assert CHAIN[0] == rule;
    case PageRule => assert CHAIN[1] == rule;
    case SortByRule => assert CHAIN[2] == rule;
    case OrderRule => assert CHAIN[3] == rule;
    case MinPriceRule => assert CHAIN[4] == rule;
    case MaxPriceRule => assert CHAIN[5] == rule;
    case MinRatingRule => assert CHAIN[6] == rule;
    case SearchRule => assert CHAIN[7] == rule;
    case CategoryRule => assert CHAIN[8] == rule;
    case BrandRule => assert CHAIN[9] == rule;
    case IsActiveRule => assert CHAIN[10] == rule;
    case StartAfterRule => assert CHAIN[11] == rule;
  }

  /** The query passes every rule. */
  predicate Valid(q: ListingQuery) {
    forall rule: Rule :: Passes(rule, q)
  }

  /** The answer of `validateProductQuery`. */
  datatype Verdict = Pass | Rejected(status: int, message: string, errors: seq<FieldError>)

  function ValidateProductQuery(q: ListingQuery): (r: Verdict)
    ensures r == Pass <==> Valid(q)
    ensures r.Rejected? ==> r.status == 400 && r.message == VALIDATION_FAILED
    ensures r.Rejected? ==> forall rule: Rule :: !Passes(rule, q) ==> ErrorOf(rule, q) in r.errors
  {
    var errors := Errors(CHAIN, q);
    forall rule: Rule ensures rule in CHAIN {
      ChainIsComplete(rule);
    }
    if errors == [] then Pass
    else
      assert exists rule :: rule in CHAIN && !Passes(rule, q) && errors[0] == ErrorOf(rule, q) by {
        assert errors[0] in errors;
      }
      Rejected(400, VALIDATION_FAILED, errors)
  }

  /** The text parameters and the cursor are never reported. */
  lemma TextParametersNeverReported(q: ListingQuery)
    ensures forall e :: e in Errors(CHAIN, q) ==> e.field != "category" && e.field != "brand" && e.field != "startAfter"
  {
  }

  /** A limit of 0 is refused, as is a search that is only white space. */
  lemma RefusedParameters(q: ListingQuery)
    ensures q.limit == Some(Param("0", Some(0.0))) ==> !Valid(q)
    ensures q.search == Some(Param("  ", None)) ==> !Valid(q)
  {
    if q.limit == Some(Param("0", Some(0.0))) {
      assert IsIntText("0") && IntTextValue("0") == 0;
      assert !Passes(LimitRule, q);
    }
    if q.search == Some(Param("  ", None)) {
      assert Trim("  ") == [] by {
        var i :| CutAt("  ", Trim("  "), i);
      }
      assert !Passes(SearchRule, q);
    }
  }

  /** The limit a query whose paging parameters pass their rules yields is the one sent (or 10) and lies between 1
      and 100, so the listing's own limit check never fails; the page is the one sent (or 1)
      and at least 1. */
  lemma ValidQueryPaging(q: ListingQuery)
    requires Passes(LimitRule, q) && Passes(PageRule, q)
    ensures var limit := ParseLimit(Raw(q.limit));
            && 1 <= limit <= MAX_LIMIT
            && (q.limit.Some? ==> IsIntText(q.limit.value.raw) && limit == IntTextValue(q.limit.value.raw))
            && (q.limit.None? ==> limit == DEFAULT_LIMIT)
    ensures var page := ParsePage(Raw(q.page));
            && page >= 1
            && (q.page.Some? ==> IsIntText(q.page.value.raw) && page == IntTextValue(q.page.value.raw))
            && (q.page.None? ==> page == DEFAULT_PAGE)
  {
    if q.limit.Some? {
      ParseLimitCases(q.limit.value.raw);
    } else {
      ParseLimitDefault();
    }
    if q.page.Some? {
      ParsePageCases(q.page.value.raw);
    } else {
      ParsePageCases("");
    }
  }

  /** Filters read from numeric parameters that pass their rules: prices that are not
      negative, a rating between 0 and 5. */
  lemma ValidQueryFilters(q: ListingQuery)
    requires Passes(MinPriceRule, q) && Passes(MaxPriceRule, q) && Passes(MinRatingRule, q)
    ensures var f := FiltersOf(q);
            && (f.minPrice.Some? ==> f.minPrice.value >= 0.0)
            && (f.maxPrice.Some? ==> f.maxPrice.value >= 0.0)
            && (f.minRating.Some? ==> 0.0 <= f.minRating.value <= 5.0)
  {
  }

  /** A sort field that passes its rule, or none, yields one of the seven sort fields. */
  lemma ValidQuerySort(q: ListingQuery)
    requires Passes(SortByRule, q)
    ensures Raw(q.sortBy).GetOr(DEFAULT_SORT) in SORT_FIELDS
  {
    assert DEFAULT_SORT == SORT_FIELDS[2];
  }

  /** The options of a query that passes the chain: paging as above, a sort field among the
      seven, and the filters above. */
  lemma ValidQueryOptions(q: ListingQuery, lower: string -> string)
    requires Valid(q)
    ensures var o := OptionsOf(q, lower);
            && 1 <= o.limit <= MAX_LIMIT && o.page >= 1
            && o.sortBy in SORT_FIELDS
            && (o.filters.minPrice.Some? ==> o.filters.minPrice.value >= 0.0)
            && (o.filters.maxPrice.Some? ==> o.filters.maxPrice.value >= 0.0)
            && (o.filters.minRating.Some? ==> 0.0 <= o.filters.minRating.value <= 5.0)
  {
    assert Passes(LimitRule, q) && Passes(PageRule, q) && Passes(SortByRule, q);
    assert Passes(MinPriceRule, q) && Passes(MaxPriceRule, q) && Passes(MinRatingRule, q);
    ValidQueryPaging(q);
    ValidQuerySort(q);
    ValidQueryFilters(q);
  }

  /** A search that passes its rule becomes the listing's search filter. */
  lemma ValidSearchIsFiltered(q: ListingQuery)
    requires Passes(SearchRule, q) && q.search.Some?
    ensures FiltersOf(q).search == Some(q.search.value.raw)
  {
    var s := q.search.value.raw;
    assert 1 <= |Trim(s)|;
    TrimShortens(s);
    assert Truthy(Raw(q.search));
  }

  lemma TrimShortens(s: string)
    ensures |Trim(s)| <= |s|
  {
    var i :| CutAt(s, Trim(s), i);
  }

  // ---------------------------------------------------------------- price range

  /** `validatePriceRange`: refuses only when both bounds are present (non-empty) and the lower
      reads as a number above the upper. */
  function PriceRangeRefused(q: ListingQuery): bool {
    Truthy(Raw(q.minPrice)) && Truthy(Raw(q.maxPrice))
    && q.minPrice.value.number.Some? && q.maxPrice.value.number.Some?
    && q.minPrice.value.number.value > q.maxPrice.value.number.value
  }

  function ValidatePriceRange(q: ListingQuery): (r: Verdict)
    ensures r == Pass <==> !PriceRangeRefused(q)
  {
    if PriceRangeRefused(q) then Rejected(400, RANGE_FAILED, [FieldError("", PRICE_RANGE_ERROR, "")]) else Pass
  }

  /** After the cross-check, the listing's price filters never exclude every price: when both
      are set the lower is at most the upper. Equal bounds and a single bound pass. */
  lemma PriceFiltersOrdered(q: ListingQuery)
    ensures ValidatePriceRange(q) == Pass ==>
      var f := FiltersOf(q);
      f.minPrice.Some? && f.maxPrice.Some? ==> f.minPrice.value <= f.maxPrice.value
    ensures q.minPrice.None? || q.maxPrice.None? ==> ValidatePriceRange(q) == Pass
    ensures q.minPrice.Some? && q.maxPrice.Some? && q.minPrice.value.number == q.maxPrice.value.number
            ==> ValidatePriceRange(q) == Pass
  {
  }
}
