/** The product detail modal: fetches one product when it is shown for a
    product id, finds the record inside the response, and shows its images
    and its non-empty information rows. */
module ProductDetail {
  import opened Js
  import opened Backend
  import opened Images

  /** A product record: its id, its image object (None when absent, falsy or
      not an object), the nine information fields (id, category, sub
      category, brand, HSN code, volume, unit, manufacturing and expiry date)
      and the seven description fields. */
  datatype ProductRecord = ProductRecord(productId: JsValue, image: Option<seq<ImageEntry>>,
                           info: seq<JsValue>, descriptions: seq<JsValue>)

  /** The first element of a list, when it is a record (an element is None
      where the array holds null). */
  function Head(items: seq<Option<ProductRecord>>): (r: Option<ProductRecord>)
    ensures r.Some? <==> items != [] && items[0].Some?
    ensures r.Some? ==> r == items[0]
  {
    if items != [] && items[0].Some? then items[0] else None
  }

  /** The product found in a response: `response.data.data[0]`, else
      `response.data[0]`, else `response[0]` when the response is an array. */
  function FoundProduct(response: Body<Option<ProductRecord>>): (r: Option<ProductRecord>)
    ensures r.Some? ==>
              || (response.List? && Head(response.items) == r)
              || (response.Record? && response.data.List? && Head(response.data.items) == r)
              || (response.Record? && response.data.Record? && response.data.data.List?
                  && Head(response.data.data.items) == r)
  {
    match response
    case Record(Record(List(items))) => Head(items)
    case Record(List(items)) => Head(items)
    case List(items) => Head(items)
    case _ => None
  }

  /** A record first in a list is found at each of the three depths, and
      none is found in a falsy or scalar response or deeper down. */
  lemma FoundProductDepth(p: ProductRecord, rest: seq<Option<ProductRecord>>)
    ensures FoundProduct(List([Some(p)] + rest)) == Some(p)
    ensures FoundProduct(Record(List([Some(p)] + rest))) == Some(p)
    ensures FoundProduct(Record(Record(List([Some(p)] + rest)))) == Some(p)
    ensures FoundProduct(Record(Record(Record(List([Some(p)] + rest))))) == None
    ensures FoundProduct(List([None] + rest)) == None
    ensures FoundProduct(Falsy) == None && FoundProduct(Scalar) == None
  {
  }

  /** `getImages(product.image)`, or the placeholder while there is no product. */
  function Gallery(product: Option<ProductRecord>): (r: seq<string>)
    ensures |r| >= 1
    ensures product.None? ==> r == [PLACEHOLDER]
  {
    if product.Some? then ImageList(product.value.image) else [PLACEHOLDER]
  }

  /** The guard of `renderInfoRow` and `renderDescription` as written:
      nothing for a falsy value, the text "null" or the empty string. */
  predicate RowHidden(v: JsValue) {
    !Truthy(v) || v == Str("null") || v == Str("")
  }

  /** The empty-string test adds nothing: a row is hidden exactly when the
      value is falsy or the text "null", and a shown row never has empty text. */
  lemma RowHiddenSpec(v: JsValue)
    ensures RowHidden(v) <==> !Truthy(v) || v == Str("null")
    ensures !RowHidden(v) ==> ToJsString(v) != ""
  {
    if !RowHidden(v) {
      TruthyRendersNonEmpty(v);
    }
  }

  /** The values of the rows that are drawn, in order. */
  function ShownRows(vs: seq<JsValue>): (r: seq<JsValue>)
    ensures forall i :: 0 <= i < |r| ==> !RowHidden(r[i])
    ensures forall i :: 0 <= i < |vs| && !RowHidden(vs[i]) ==> vs[i] in r
    ensures forall v :: v in r ==> v in vs
  {
    if vs == [] then []
    else (if RowHidden(vs[0]) then [] else [vs[0]]) + ShownRows(vs[1..])
  }

  /** Only falsy values and "null" are dropped: among truthy values other
      than "null" every row is drawn. */
  lemma {:induction false} ShownRowsKeepsTruthy(vs: seq<JsValue>)
    requires forall i :: 0 <= i < |vs| ==> Truthy(vs[i]) && vs[i] != Str("null")
    ensures ShownRows(vs) == vs
  {
    if vs != [] {
      ShownRowsKeepsTruthy(vs[1..]);
    }
  }

  const NOT_FOUND := "Product not found"
  const LOAD_FAILED := "Failed to load product details"

  class ProductDetailModal {
    var product: Option<ProductRecord>
    var loading: bool
    var error: Option<string>
    var selectedImage: int
    /** The product ids requested so far. */
    var requests: seq<JsValue>
    /** How many times the parent's `onClose` ran. */
    var closes: nat

    constructor()
      ensures product == None && loading && error == None && selectedImage == 0
      ensures requests == [] && closes == 0
    {
      product := None;
      loading := true;
      error := None;
      selectedImage := 0;
      requests := [];
      closes := 0;
    }

    /** The images the modal shows. */
    function Images(): (r: seq<string>)
      reads this
      ensures |r| >= 1
    {
      Gallery(product)
    }

    /** `fetchProductDetails` up to its call. */
    method BeginFetch(productId: JsValue)
      modifies this
      ensures loading && error == None && requests == old(requests) + [productId]
      ensures product == old(product) && selectedImage == old(selectedImage) && closes == old(closes)
    {
      loading := true;
      error := None;
      requests := requests + [productId];
    }

    /** The effect on `visible` and `productId`: details are fetched only when
        the modal is visible and the id is truthy. */
    method Shown(visible: bool, productId: JsValue)
      modifies this
      ensures visible && Truthy(productId) ==> requests == old(requests) + [productId] && loading && error == None
      ensures !(visible && Truthy(productId)) ==>
                requests == old(requests) && loading == old(loading) && error == old(error)
      ensures product == old(product) && selectedImage == old(selectedImage) && closes == old(closes)
    {
      if visible && Truthy(productId) {
        BeginFetch(productId);
      }
    }

    /** The rest of `fetchProductDetails`: the found record becomes the
        product; a response without one sets "Product not found"; a thrown
        error sets its own message. Loading ends false on every path. */
    method FinishFetch(reply: Reply<Body<Option<ProductRecord>>>)
      modifies this
      ensures !loading
      ensures reply.Returned? && FoundProduct(reply.body).Some? ==>
                product == FoundProduct(reply.body) && error == old(error)
      ensures reply.Returned? && FoundProduct(reply.body).None? ==>
                product == old(product) && error == Some(NOT_FOUND)
      ensures reply.Threw? ==> product == old(product) && error == Some(LOAD_FAILED)
      ensures requests == old(requests) && selectedImage == old(selectedImage) && closes == old(closes)
    {
      match reply {
        case Returned(body) =>
          var found := FoundProduct(body);
          if found.Some? {
            product := found;
          } else {
            error := Some(NOT_FOUND);
          }
        case Threw(_) =>
          error := Some(LOAD_FAILED);
      }
      loading := false;
    }

    /** Tapping a thumbnail. */
    method SelectImage(i: int)
      requires 0 <= i < |Images()|
      modifies this
      ensures selectedImage == i && product == old(product) && error == old(error) && loading == old(loading)
      ensures requests == old(requests) && closes == old(closes)
    {
      selectedImage := i;
    }

    /** `handleClose`: the product, the selected image and the error are reset
        and the parent is told. */
    method Close()
      modifies this
      ensures product == None && selectedImage == 0 && error == None && closes == old(closes) + 1
      ensures Images() == [PLACEHOLDER]
      ensures loading == old(loading) && requests == old(requests)
    {
      product := None;
      selectedImage := 0;
      error := None;
      closes := closes + 1;
    }
  }
}
