/** Product image URLs, as the store list and the product detail modal build
    them: `buildImageUrl` and the "values of the image object, in sorted key
    order, falsy ones dropped, placeholder if none" rule. */
module Images {
  import opened Js

  const HTTPS := "https://"
  const PLACEHOLDER := HTTPS + "via.placeholder.com/400x300.png?text=No+Image"
  const BASE_IMAGE_URL := HTTPS + "www.onlineaushadhi.in/myadmin/uploads/product/"

  /** `buildImageUrl(filename)` */
  function BuildImageUrl(filename: string): (url: string)
    ensures filename != "" ==> EndsWith(url, filename)
  {
    if filename == "" then PLACEHOLDER
    else if StartsWith(filename, "http") then filename
    else BASE_IMAGE_URL + filename
  }

  /** Every built URL is absolute (begins with "http"), and building again
      changes nothing. */
  lemma BuildImageUrlAbsolute(filename: string)
    ensures StartsWith(BuildImageUrl(filename), "http")
    ensures BuildImageUrl(BuildImageUrl(filename)) == BuildImageUrl(filename)
  {
    assert HTTPS[..4] == "http";
    if filename == "" {
      assert PLACEHOLDER[..4] == HTTPS[..4];
    } else if !StartsWith(filename, "http") {
      assert (BASE_IMAGE_URL + filename)[..4] == HTTPS[..4];
    }
  }

  /** A product's `image` object: its entries in `Object.keys` order, each
      value a file name or null. */
  type ImageEntry = (string, Option<string>)

  /** `Boolean(imageObj[k])`: a non-empty file name. */
  predicate HasImage(e: ImageEntry) {
    e.1.Some? && e.1.value != ""
  }

  /* ---------------- Array.prototype.sort() on the keys ---------------- */

  /** The default `sort()` order on strings: lexicographic by character. */
  predicate LexLe(a: string, b: string) {
    if a == [] then true
    else if b == [] then false
    else if a[0] != b[0] then a[0] < b[0]
    else LexLe(a[1..], b[1..])
  }

  lemma {:induction false} LexLeTotal(a: string, b: string)
    ensures LexLe(a, b) || LexLe(b, a)
  {
    if a != [] && b != [] && a[0] == b[0] {
      LexLeTotal(a[1..], b[1..]);
    }
  }

  lemma {:induction false} LexLeTransitive(a: string, b: string, c: string)
    requires LexLe(a, b) && LexLe(b, c)
    ensures LexLe(a, c)
  {
    if a != [] && b != [] && c != [] && a[0] == b[0] && b[0] == c[0] {
      LexLeTransitive(a[1..], b[1..], c[1..]);
    }
  }

  predicate SortedByKey(s: seq<ImageEntry>) {
    forall i, j :: 0 <= i < j < |s| ==> LexLe(s[i].0, s[j].0)
  }

  function Insert(e: ImageEntry, s: seq<ImageEntry>): (r: seq<ImageEntry>)
    ensures multiset(r) == multiset(s) + multiset{e}
  {
    if s == [] then [e]
    else if LexLe(e.0, s[0].0) then [e] + s
    else
      assert s == [s[0]] + s[1..];
      [s[0]] + Insert(e, s[1..])
  }

  /** Inserting adds `e` and nothing else. */
  lemma InsertMembers(e: ImageEntry, s: seq<ImageEntry>)
    ensures forall x :: x in Insert(e, s) <==> x == e || x in s
  {
    forall x ensures x in Insert(e, s) <==> x == e || x in s {
      assert x in Insert(e, s) <==> x in multiset(Insert(e, s));
      assert x in s <==> x in multiset(s);
    }
  }

  /** The first key of a sorted list is no greater than any key in the list. */
  lemma SortedHeadLeast(s: seq<ImageEntry>)
    requires SortedByKey(s) && s != []
    ensures forall x :: x in s ==> LexLe(s[0].0, x.0)
  {
    forall x | x in s ensures LexLe(s[0].0, x.0) {
      var k :| 0 <= k < |s| && s[k] == x;
      if k == 0 {
        LexLeTotal(x.0, x.0);
      }
    }
  }

  lemma {:induction false} InsertSorted(e: ImageEntry, s: seq<ImageEntry>)
    requires SortedByKey(s)
    ensures SortedByKey(Insert(e, s))
  {
    if s == [] {
    } else if LexLe(e.0, s[0].0) {
      SortedHeadLeast(s);
      forall x | x in s ensures LexLe(e.0, x.0) {
        LexLeTransitive(e.0, s[0].0, x.0);
      }
      SortedCons(e, s);
    } else {
      var tail := s[1..];
      assert SortedByKey(tail) by {
        forall i, j | 0 <= i < j < |tail| ensures LexLe(tail[i].0, tail[j].0) {
          assert tail[i] == s[i + 1] && tail[j] == s[j + 1];
        }
      }
      InsertSorted(e, tail);
      SortedHeadLeast(s);
      LexLeTotal(e.0, s[0].0);
      InsertMembers(e, tail);
      forall x | x in Insert(e, tail) ensures LexLe(s[0].0, x.0) {
        if x != e {
          assert x in s;
        }
      }
      SortedCons(s[0], Insert(e, tail));
    }
  }

  /** `Object.keys(imageObj).sort()` applied to the entries: an insertion sort on the keys. */
  function SortByKey(es: seq<ImageEntry>): (r: seq<ImageEntry>)
    ensures SortedByKey(r)
    ensures multiset(r) == multiset(es)
  {
    if es == [] then []
    else
      var rest := SortByKey(es[1..]);
      InsertSorted(es[0], rest);
      assert es == [es[0]] + es[1..];
      Insert(es[0], rest)
  }

  /** `.map(k => imageObj[k]).filter(Boolean)`, keeping the entries. */
  function TruthyEntries(es: seq<ImageEntry>): (r: seq<ImageEntry>)
    ensures forall i :: 0 <= i < |r| ==> HasImage(r[i])
    ensures forall x :: x in r ==> x in es
    ensures forall e :: multiset(r)[e] == if HasImage(e) then multiset(es)[e] else 0
  {
    if es == [] then []
    else
      assert es == [es[0]] + es[1..];
      (if HasImage(es[0]) then [es[0]] else []) + TruthyEntries(es[1..])
  }

  /** An entry whose key is below every key of a sorted list may go in front. */
  lemma SortedCons(e: ImageEntry, s: seq<ImageEntry>)
    requires SortedByKey(s)
    requires forall x :: x in s ==> LexLe(e.0, x.0)
    ensures SortedByKey([e] + s)
  {
    var r := [e] + s;
    forall i, j | 0 <= i < j < |r| ensures LexLe(r[i].0, r[j].0) {
      if i == 0 {
        assert r[j] == s[j - 1];
      } else {
        assert r[i] == s[i - 1] && r[j] == s[j - 1];
      }
    }
  }

  /** Dropping entries keeps the key order. */
  lemma {:induction false} TruthyEntriesSorted(es: seq<ImageEntry>)
    requires SortedByKey(es)
    ensures SortedByKey(TruthyEntries(es))
  {
    if es != [] {
      var tail := es[1..];
      assert SortedByKey(tail) by {
        forall i, j | 0 <= i < j < |tail| ensures LexLe(tail[i].0, tail[j].0) {
          assert tail[i] == es[i + 1] && tail[j] == es[j + 1];
        }
      }
      TruthyEntriesSorted(tail);
      var rest := TruthyEntries(tail);
      if HasImage(es[0]) {
        forall x | x in rest ensures LexLe(es[0].0, x.0) {
          var k :| 0 <= k < |tail| && tail[k] == x;
          assert es[k + 1] == x;
        }
        SortedCons(es[0], rest);
      }
    }
  }

  /** The file name of an entry that has one. */
  function FileName(e: ImageEntry): string {
    e.1.GetOr("")
  }

  /** `.map(buildImageUrl)` */
  function UrlsOf(es: seq<ImageEntry>): (r: seq<string>)
    ensures |r| == |es| && forall i :: 0 <= i < |es| ==> r[i] == BuildImageUrl(FileName(es[i]))
  {
    if es == [] then [] else [BuildImageUrl(FileName(es[0]))] + UrlsOf(es[1..])
  }

  /** The gallery of a product: `getImages(product.image)` in the detail modal,
      `images` in the store's `normalizeProduct`. A missing image object gives
      the placeholder alone. */
  function ImageList(image: Option<seq<ImageEntry>>): (r: seq<string>)
    ensures |r| >= 1
  {
    match image
    case None => [PLACEHOLDER]
    case Some(es) =>
      var urls := UrlsOf(TruthyEntries(SortByKey(es)));
      if urls == [] then [PLACEHOLDER] else urls
  }

  /** Filtering commutes with reordering. */
  lemma TruthyEntriesPermutation(a: seq<ImageEntry>, b: seq<ImageEntry>)
    requires multiset(a) == multiset(b)
    ensures multiset(TruthyEntries(a)) == multiset(TruthyEntries(b))
  {
    var ta, tb := TruthyEntries(a), TruthyEntries(b);
    forall e ensures multiset(ta)[e] == multiset(tb)[e] {
    }
  }

  /** Nothing is left after filtering exactly when no entry names a file. */
  lemma {:induction false} TruthyEntriesEmpty(es: seq<ImageEntry>)
    ensures TruthyEntries(es) == [] <==> forall i :: 0 <= i < |es| ==> !HasImage(es[i])
  {
    if es != [] {
      TruthyEntriesEmpty(es[1..]);
      assert forall i :: 1 <= i < |es| ==> es[i] == es[1..][i - 1];
    }
  }

  /** The gallery is the placeholder alone when no entry names a file, and
      otherwise the URLs of exactly the entries that do, taken in key order. */
  lemma ImageListSpec(es: seq<ImageEntry>)
    ensures (forall i :: 0 <= i < |es| ==> !HasImage(es[i])) ==> ImageList(Some(es)) == [PLACEHOLDER]
    ensures (exists i :: 0 <= i < |es| && HasImage(es[i])) ==>
              exists picked :: SortedByKey(picked)
                            && multiset(picked) == multiset(TruthyEntries(es))
                            && ImageList(Some(es)) == UrlsOf(picked)
  {
    var sorted := SortByKey(es);
    var picked := TruthyEntries(sorted);
    TruthyEntriesSorted(sorted);
    TruthyEntriesPermutation(sorted, es);
    TruthyEntriesEmpty(es);
    if picked == [] {
      assert multiset(TruthyEntries(es)) == multiset{};
      assert TruthyEntries(es) == [];
    }
  }

  /** Every URL of a gallery is absolute. */
  lemma ImageListAbsolute(image: Option<seq<ImageEntry>>)
    ensures forall i :: 0 <= i < |ImageList(image)| ==> StartsWith(ImageList(image)[i], "http")
  {
    BuildImageUrlAbsolute("");
    forall i | 0 <= i < |ImageList(image)| ensures StartsWith(ImageList(image)[i], "http") {
      if image.Some? {
        var picked := TruthyEntries(SortByKey(image.value));
        if picked != [] {
          BuildImageUrlAbsolute(FileName(picked[i]));
        }
      }
    }
  }
}
