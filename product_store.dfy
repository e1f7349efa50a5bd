/** The product collection of src/models/product.model.ts: the paginated listing and the
    writes, over an in-memory table of documents keyed by id. */
module ProductStore {
  import opened Wrappers
  import opened Types
  import opened Strings
  import opened ProductQuery

  const PAGINATION_ERROR: string := "Error al obtener productos con paginación: "
  /** The error the database client raises for `limit(n)` with `n` below 1. */
  function LimitRejected(n: int): string {
    "Function limit() requires a positive number, but it was: " + IntToString(n) + "."
  }

  const UPDATE_ERROR: string := "Error al actualizar producto: "
  const DELETE_ERROR: string := "Error al eliminar el producto: "

  function NotFound(id: string): string {
    "No se encontró el producto con ID '" + id + "'"
  }

  function Deleted(id: string): string {
    "Producto con ID '" + id + "' eliminado correctamente."
  }

  function CreatedMany(n: nat): string {
    NatToString(n) + " productos creados exitosamente"
  }

  /** `{ id: doc.id, ...doc.data() }`: the product under `key`, whose `id` is an `id` field
      stored in the document when there is one. */
  function ReadProduct(key: string, d: ProductData): Product {
    Product(if d.storedId.Some? then d.storedId.value else key, d)
  }

  /** `updateDoc(ref, {...patch, updatedAt: now})`: the supplied fields overwrite, the others
      stay, and the update time is stamped. `Partial<Product>` admits `id` and `createdAt`, and
      those are written like any other field. */
  function ApplyPatch(d: ProductData, p: PartialProduct, now: string): ProductData {
    ProductData(
      p.name.GetOr(d.name), p.description.GetOr(d.description), p.price.GetOr(d.price),
      p.image.GetOr(d.image), p.category.GetOr(d.category), p.stock.GetOr(d.stock),
      p.rating.GetOr(d.rating), p.brand.GetOr(d.brand), p.isActive.GetOr(d.isActive),
      p.createdAt.GetOr(d.createdAt), Some(now), if p.id.Some? then p.id else d.storedId)
  }

  /** The fields of `q`, falling back to those of `p`: two updates in a row. */
  function Overlay(p: PartialProduct, q: PartialProduct): PartialProduct {
    PartialProduct(
      if q.name.Some? then q.name else p.name,
      if q.description.Some? then q.description else p.description,
      if q.price.Some? then q.price else p.price,
      if q.image.Some? then q.image else p.image,
      if q.category.Some? then q.category else p.category,
      if q.stock.Some? then q.stock else p.stock,
      if q.rating.Some? then q.rating else p.rating,
      if q.brand.Some? then q.brand else p.brand,
      if q.isActive.Some? then q.isActive else p.isActive,
      if q.id.Some? then q.id else p.id,
      if q.createdAt.Some? then q.createdAt else p.createdAt)
  }

  /** Two updates in a row are one update with the later fields winning; repeating an update
      changes nothing more; and a patch without `createdAt` or `id` keeps the creation time
      and the id the product is read back with. */
  lemma PatchComposes(key: string, d: ProductData, p: PartialProduct, q: PartialProduct, t1: string, t2: string)
    ensures ApplyPatch(ApplyPatch(d, p, t1), q, t2) == ApplyPatch(d, Overlay(p, q), t2)
    ensures ApplyPatch(ApplyPatch(d, p, t1), p, t1) == ApplyPatch(d, p, t1)
    ensures p.createdAt.None? ==> ApplyPatch(d, p, t1).createdAt == d.createdAt
    ensures p.id.None? ==> ReadProduct(key, ApplyPatch(d, p, t1)).id == ReadProduct(key, d).id
  {
  }

  /** A patch carrying `createdAt` rewrites the creation time, and one carrying `id` makes the
      product read back under that id, while its document keeps its key; a product that never
      had an `id` written is read back under its key. */
  lemma PatchRewritesIdentity(key: string, d: ProductData, p: PartialProduct, now: string)
    ensures p.createdAt.Some? ==> ApplyPatch(d, p, now).createdAt == p.createdAt.value
    ensures p.id.Some? ==> ReadProduct(key, ApplyPatch(d, p, now)).id == p.id.value
    ensures d.storedId.None? ==> ReadProduct(key, d).id == key
  {
  }

  class ProductTable {
    /** The `productos` collection: document id to document fields. */
    var docs: map<string, ProductData>

    constructor (initial: map<string, ProductData>)
      ensures docs == initial
    {
      docs := initial;
    }

    /** `getAllWithPagination`. The database is represented by `fetch`, the documents a query
        returns in order, and `count`, the size of a count query's result; `lower` stands for
        `toLowerCase` and `maxChar` for the `` sentinel. */
    method GetAllWithPagination(opts: PaginationOptions, maxChar: char, lower: string -> string,
                                fetch: seq<Constraint> -> seq<Product>, count: CountQuery -> nat)
      returns (r: Result<PaginatedResult>)
      ensures opts.limit < 0 ==> r == Failure(PAGINATION_ERROR + LimitRejected(opts.limit + 1))
      ensures opts.limit >= 0 ==>
        r == Success(PageOf(fetch(PageConstraints(opts, maxChar, docs.Keys)), opts.limit,
                            opts.filters.search, lower, count(CountQueryOf(FilterClauses(opts.filters)))))
    {
      var constraints := BuildConstraints(opts, maxChar, docs.Keys);
      if opts.limit < 0 {
        return Failure(PAGINATION_ERROR + LimitRejected(opts.limit + 1));
      }
      var limit: nat := opts.limit;
      var snapshot := fetch(constraints);
      var countConstraints := BuildCountConstraints(opts.filters);
      var total := count(CountQueryOf(countConstraints));
      var hasNext := |snapshot| > limit;
      var products := CollectPage(snapshot, limit);
      var filteredProducts := products;
      if Truthy(opts.filters.search) {
        filteredProducts := FilterBySearch(products, opts.filters.search.value, lower);
      }
      var nextCursor := NextCursor(hasNext, filteredProducts);
      r := Success(PaginatedResult(filteredProducts, total, hasNext, nextCursor));
    }

    /** `getProductById`: the document under `id` read back, or `null`. */
    method GetProductById(id: string) returns (r: Option<Product>)
      ensures r.Some? <==> id in docs
      ensures r.Some? ==> r.value == ReadProduct(id, docs[id]) && r.value.data == docs[id]
      ensures r.Some? && docs[id].storedId.None? ==> r.value.id == id
    {
      if id !in docs {
        return None;
      }
      var data := docs[id];
      r := Some(Product(if data.storedId.Some? then data.storedId.value else id, data));
    }

    /** `updateProduct`: a missing id fails and changes nothing; otherwise exactly that
        document is patched. */
    method UpdateProduct(id: string, patch: PartialProduct, now: string) returns (r: Result<string>)
      modifies this
      ensures id !in old(docs) ==> r == Failure(UPDATE_ERROR + NotFound(id)) && docs == old(docs)
      ensures id in old(docs) ==> r == Success(id) && docs == old(docs)[id := ApplyPatch(old(docs)[id], patch, now)]
    {
      if id !in docs {
        return Failure(UPDATE_ERROR + NotFound(id));
      }
      docs := docs[id := ApplyPatch(docs[id], patch, now)];
      r := Success(id);
    }

    /** `deleteProduct`: a missing id fails and changes nothing; otherwise exactly that
        document is removed. */
    method DeleteProduct(id: string) returns (r: Result<string>)
      modifies this
      ensures id !in old(docs) ==> r == Failure(DELETE_ERROR + NotFound(id)) && docs == old(docs)
      ensures id in old(docs) ==> r == Success(Deleted(id)) && docs == old(docs) - {id}
      ensures docs.Keys == old(docs).Keys - {id}
    {
      if id !in docs {
        return Failure(DELETE_ERROR + NotFound(id));
      }
      docs := docs - {id};
      r := Success(Deleted(id));
    }

    /** `createProduct`: `addDoc` stores the product under a new id, which it returns. */
    method CreateProduct(product: ProductData, newId: string) returns (id: string)
      requires newId !in docs
      modifies this
      ensures id == newId && id !in old(docs)
      ensures docs == old(docs)[id := product]
    {
      docs := docs[newId := product];
      id := newId;
    }

    /** `createManyProducts`: one batch write of every item under its own new id. */
    method CreateManyProducts(products: seq<ProductData>, newIds: seq<string>) returns (message: string)
      requires |newIds| == |products|
      requires forall i, j :: 0 <= i < j < |newIds| ==> newIds[i] != newIds[j]
      requires forall i :: 0 <= i < |newIds| ==> newIds[i] !in docs
      modifies this
      ensures message == CreatedMany(|products|)
      ensures docs.Keys == old(docs).Keys + set i | 0 <= i < |newIds| :: newIds[i]
      ensures forall i :: 0 <= i < |newIds| ==> docs[newIds[i]] == products[i]
      ensures forall id :: id in old(docs) ==> docs[id] == old(docs)[id]
    {
      var i := 0;
      while i < |products|
        invariant 0 <= i <= |products|
        invariant docs.Keys == old(docs).Keys + set k | 0 <= k < i :: newIds[k]
        invariant forall k :: 0 <= k < i ==> docs[newIds[k]] == products[k]
        invariant forall id :: id in old(docs) ==> docs[id] == old(docs)[id]
      {
        docs := docs[newIds[i] := products[i]];
        i := i + 1;
      }
      message := CreatedMany(|products|);
    }
  }
}
