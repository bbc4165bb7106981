/** The store screen: the vendor's product catalogue, normalised from the
    backend's records, with a search box over names and generic names. */
module Store {
  import opened Js
  import opened Backend
  import opened Images

  /** A product record as the catalogue endpoint returns it. */
  datatype RawProduct = RawProduct(
    productId: JsValue,
    productName: Option<string>,
    genericName: Option<string>,
    mrp: JsValue,
    salePrice: JsValue,
    image: Option<seq<ImageEntry>>)

  /** A product as the list shows it. `id` is None where the source invents a
      random one because the record has no `product_id`. */
  datatype Product = Product(
    id: Option<string>,
    name: string,
    generic: string,
    mrp: JsValue,
    price: JsValue,
    images: seq<string>,
    raw: RawProduct)

  const UNKNOWN_PRODUCT := "Unknown Product"

  /** `normalizeProduct`: the record with its defaults filled in. */
  function Normalize(p: RawProduct): (r: Product)
    ensures r.raw == p
    ensures r.id.None? <==> p.productId.Null? || p.productId.Undefined?
    ensures r.id.Some? ==> r.id.value == ToJsString(p.productId)
    ensures p.productName.Some? ==> r.name == p.productName.value
    ensures p.productName.None? ==> r.name == UNKNOWN_PRODUCT
    ensures p.genericName.Some? ==> r.generic == p.genericName.value
    ensures p.genericName.None? ==> r.generic == ""
    ensures r.mrp == (if p.mrp.Null? || p.mrp.Undefined? then Str("") else p.mrp)
    ensures r.price == (if p.salePrice.Null? || p.salePrice.Undefined? then Str("") else p.salePrice)
    ensures |r.images| >= 1 && r.images == ImageList(p.image)
  {
    Product(
      if p.productId.Null? || p.productId.Undefined? then None else Some(ToJsString(p.productId)),
      p.productName.GetOr(UNKNOWN_PRODUCT),
      p.genericName.GetOr(""),
      Coalesce(p.mrp, Str("")),
      Coalesce(p.salePrice, Str("")),
      ImageList(p.image),
      p)
  }

  /** Every normalised product shows at least one image, each an absolute URL. */
  lemma NormalizedImagesAbsolute(p: RawProduct)
    ensures |Normalize(p).images| >= 1
    ensures forall i :: 0 <= i < |Normalize(p).images| ==> StartsWith(Normalize(p).images[i], "http")
  {
    ImageListAbsolute(p.image);
  }

  /** `list.map(normalizeProduct)` */
  function NormalizeAll(ps: seq<RawProduct>): (r: seq<Product>)
    ensures |r| == |ps| && forall i :: 0 <= i < |ps| ==> r[i] == Normalize(ps[i])
  {
    if ps == [] then [] else [Normalize(ps[0])] + NormalizeAll(ps[1..])
  }

  /** `extractArray(res)`: the first array among `res`, `res.data` and
      `res.data.data`, or none. */
  function ExtractArray<T>(res: Body<T>): (r: seq<T>)
    ensures res.List? ==> r == res.items
    ensures res.Record? && res.data.List? ==> r == res.data.items
    ensures res.Record? && res.data.Record? && res.data.data.List? ==> r == res.data.data.items
  {
    match res
    case List(items) => items
    case Record(List(items)) => items
    case Record(Record(List(items))) => items
    case _ => []
  }

  /** A list is found at any of the three depths and at no deeper one; a
      falsy or scalar response holds no products. */
  lemma ExtractArrayDepth<T>(xs: seq<T>)
    ensures ExtractArray(List(xs)) == xs
    ensures ExtractArray(Record(List(xs))) == xs
    ensures ExtractArray(Record(Record(List(xs)))) == xs
    ensures ExtractArray(Record(Record(Record(List(xs))))) == []
    ensures ExtractArray<T>(Falsy) == [] && ExtractArray<T>(Scalar) == []
  {
  }

  /* ---------------- search ---------------- */

  /** The search key: `query.trim().toLowerCase()`. */
  function SearchKey(query: string): string {
    ToLower(Trim(query))
  }

  /** A product matches a non-empty key when its lower-cased name or generic
      name contains it. */
  predicate Matches(p: Product, key: string) {
    Contains(ToLower(p.name), key) || Contains(ToLower(p.generic), key)
  }

  /** `filtered`: every product for a blank query, otherwise the matching
      products in catalogue order. */
  function Search(products: seq<Product>, query: string): (r: seq<Product>)
    ensures SearchKey(query) == "" ==> r == products
    ensures forall p :: p in r <==> p in products && (SearchKey(query) == "" || Matches(p, SearchKey(query)))
    ensures |r| <= |products|
  {
    if products == [] then []
    else
      var rest := Search(products[1..], query);
      assert products == [products[0]] + products[1..];
      if SearchKey(query) == "" || Matches(products[0], SearchKey(query)) then [products[0]] + rest else rest
  }

  /** Searching a concatenation searches the parts, so the order of the
      catalogue is kept. */
  lemma {:induction false} SearchAppend(a: seq<Product>, b: seq<Product>, query: string)
    ensures Search(a + b, query) == Search(a, query) + Search(b, query)
  {
    if a == [] {
      assert a + b == b;
    } else {
      assert (a + b)[0] == a[0] && (a + b)[1..] == a[1..] + b;
      SearchAppend(a[1..], b, query);
    }
  }

  /** Searching the results again with the same query changes nothing. */
  lemma {:induction false} SearchIdempotent(products: seq<Product>, query: string)
    ensures Search(Search(products, query), query) == Search(products, query)
  {
    if products != [] {
      SearchIdempotent(products[1..], query);
      var rest := Search(products[1..], query);
      if SearchKey(query) == "" || Matches(products[0], SearchKey(query)) {
        assert ([products[0]] + rest)[1..] == rest;
      }
    }
  }

  /** Lower-casing a trimmed string leaves it trimmed, so its key is itself. */
  lemma LowerKeepsTrimmed(t: string)
    requires t == [] || (!IsJsWhitespace(t[0]) && !IsJsWhitespace(t[|t| - 1]))
    ensures SearchKey(ToLower(t)) == ToLower(t)
  {
    var l := ToLower(t);
    assert Trim(l) == l by {
      if t != [] {
        assert l[0] == LowerChar(t[0]) && l[|l| - 1] == LowerChar(t[|t| - 1]);
        LowerCharWhitespace(t[0]);
        LowerCharWhitespace(t[|t| - 1]);
      }
      NoWhitespaceTrim(l);
    }
    ToLowerIdempotent(t);
  }

  /** Surrounding spaces and capitals in the query make no difference. */
  lemma SearchKeyNormalised(query: string)
    ensures SearchKey(Trim(query)) == SearchKey(query)
    ensures SearchKey(SearchKey(query)) == SearchKey(query)
  {
    var t := Trim(query);
    var key := SearchKey(query);
    assert key == ToLower(t);
    LowerKeepsTrimmed(t);
    TrimIdempotent(query);
  }

  /** A name with no white space at its ends is its own key, lower-cased. */
  lemma TrimmedNameKey(n: string)
    requires n == [] || (!IsJsWhitespace(n[0]) && !IsJsWhitespace(n[|n| - 1]))
    ensures SearchKey(n) == ToLower(n)
  {
    NoWhitespaceTrim(n);
  }

  /** A product matches its own lower-cased name. */
  lemma MatchesOwnName(p: Product)
    ensures Matches(p, ToLower(p.name))
  {
    assert OccursAt(ToLower(p.name), ToLower(p.name), 0);
  }

  /** A product is found by its own name, whatever its case. */
  lemma FoundByOwnName(products: seq<Product>, i: int)
    requires 0 <= i < |products|
    requires var n := products[i].name; n == [] || (!IsJsWhitespace(n[0]) && !IsJsWhitespace(n[|n| - 1]))
    ensures products[i] in Search(products, products[i].name)
  {
    TrimmedNameKey(products[i].name);
    MatchesOwnName(products[i]);
  }

  const FETCH_FAILED := "Unable to fetch products"

  class StoreScreen {
    var query: string
    var products: seq<Product>
    var loading: bool
    var refreshing: bool
    var error: Option<string>
    /** Catalogue requests sent so far. */
    var fetches: nat
    var detailVisible: bool
    var selectedProductId: Option<string>

    constructor()
      ensures query == "" && products == [] && loading && !refreshing && error == None
      ensures fetches == 0 && !detailVisible && selectedProductId == None
    {
      query := "";
      products := [];
      loading := true;
      refreshing := false;
      error := None;
      fetches := 0;
      detailVisible := false;
      selectedProductId := None;
    }

    /** The list shown under the search box. */
    function Shown(): (r: seq<Product>)
      reads this
      ensures |r| <= |products|
    {
      Search(products, query)
    }

    method SetQuery(q: string)
      modifies this
      ensures query == q && products == old(products) && loading == old(loading) && error == old(error)
      ensures refreshing == old(refreshing) && fetches == old(fetches)
      ensures detailVisible == old(detailVisible) && selectedProductId == old(selectedProductId)
    {
      query := q;
    }

    /** `fetchProducts(showLoading)` up to its call: the error is cleared and
        the catalogue requested. */
    method BeginFetch(showLoading: bool)
      modifies this
      ensures loading == (showLoading || old(loading)) && error == None && fetches == old(fetches) + 1
      ensures products == old(products) && refreshing == old(refreshing) && query == old(query)
      ensures detailVisible == old(detailVisible) && selectedProductId == old(selectedProductId)
    {
      if showLoading {
        loading := true;
      }
      error := None;
      fetches := fetches + 1;
    }

    /** The rest of `fetchProducts`: the products are the normalised records of
        the array found in the response; a thrown error empties the list and
        sets the error. Loading and refreshing end false. */
    method FinishFetch(reply: Reply<Body<RawProduct>>)
      modifies this
      ensures !loading && !refreshing
      ensures reply.Returned? ==> products == NormalizeAll(ExtractArray(reply.body)) && error == old(error)
      ensures reply.Threw? ==> products == [] && error == Some(FETCH_FAILED)
      ensures query == old(query) && fetches == old(fetches)
      ensures detailVisible == old(detailVisible) && selectedProductId == old(selectedProductId)
    {
      match reply {
        case Returned(body) =>
          products := NormalizeAll(ExtractArray(body));
        case Threw(_) =>
          error := Some(FETCH_FAILED);
          products := [];
      }
      loading := false;
      refreshing := false;
    }

    /** Pull to refresh: a fetch without the loading indicator. */
    method Refresh()
      modifies this
      ensures refreshing && error == None && fetches == old(fetches) + 1
      ensures loading == old(loading) && products == old(products) && query == old(query)
      ensures detailVisible == old(detailVisible) && selectedProductId == old(selectedProductId)
    {
      refreshing := true;
      BeginFetch(false);
    }

    /** Tapping a product opens its detail modal. */
    method ViewProduct(id: Option<string>)
      modifies this
      ensures selectedProductId == id && detailVisible
      ensures products == old(products) && query == old(query) && loading == old(loading)
      ensures refreshing == old(refreshing) && error == old(error) && fetches == old(fetches)
    {
      selectedProductId := id;
      detailVisible := true;
    }

    /** Closing the detail modal hides it and forgets the product. */
    method CloseDetail()
      modifies this
      ensures !detailVisible && selectedProductId == None
      ensures products == old(products) && query == old(query) && loading == old(loading)
      ensures refreshing == old(refreshing) && error == old(error) && fetches == old(fetches)
    {
      detailVisible := false;
      selectedProductId := None;
    }
  }
}
