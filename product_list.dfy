/**
  The catalog page's pagination: the window of products shown for the
  current page, the total handed to the pagination control, and the reset
  to page 1 when the category changes.
 */
module ProductList {
  import opened Shop

  /** `products || []`. */
  function ListOrEmpty<T>(products: Option<seq<T>>): seq<T>
  {
    match products
    case None => []
    case Some(s) => s
  }

  /** How `Array.prototype.slice` reads an index: a negative index counts
      back from the end, and the result is clamped to [0, len]. */
  function SliceIndex(k: int, len: nat): (r: nat)
    ensures r <= len
    ensures 0 <= k <= len ==> r == k
    ensures k > len ==> r == len
    ensures k < 0 ==> r == (if len + k < 0 then 0 else len + k)
  {
    if k < 0 then (if len + k < 0 then 0 else len + k)
    else if k > len then len
    else k
  }

  /** `s.slice(start, end)`: in-range indices cut the sequence as written,
      negative ones count back from the end, and the result is the run of s
      that starts at the clamped start. */
  function Slice<T>(s: seq<T>, start: int, end: int): (r: seq<T>)
    ensures |r| <= |s|
    ensures 0 <= start <= end <= |s| ==> r == s[start..end]
    ensures -|s| <= start <= end < 0 ==> r == s[|s| + start..|s| + end]
    ensures end <= start && (0 <= end || start < 0) ==> r == []
    ensures SliceIndex(end, |s|) <= SliceIndex(start, |s|) ==> r == []
    ensures r != [] ==> SliceIndex(start, |s|) + |r| <= |s| &&
                        forall j :: 0 <= j < |r| ==> r[j] == s[SliceIndex(start, |s|) + j]
  {
    var from := SliceIndex(start, |s|);
    var to := SliceIndex(end, |s|);
    if from <= to then s[from..to] else []
  }

  function Min(a: int, b: int): int
  {
    if a <= b then a else b
  }

  /** `currentProducts`, from `indexOfLastProduct` and `indexOfFirstProduct`:
      only products of the list, empty when there is no list. */
  function CurrentProducts<T>(products: Option<seq<T>>, currentPage: int, productsPerPage: int): (r: seq<T>)
    ensures products.None? ==> r == []
    ensures |r| <= |ListOrEmpty(products)|
    ensures forall x :: x in r ==> x in ListOrEmpty(products)
  {
    var indexOfLastProduct := currentPage * productsPerPage;
    var indexOfFirstProduct := indexOfLastProduct - productsPerPage;
    Slice(ListOrEmpty(products), indexOfFirstProduct, indexOfLastProduct)
  }

  /** `totalItems` passed to the pagination control. */
  function TotalItems<T>(products: Option<seq<T>>): (r: nat)
    ensures products.None? ==> r == 0
    ensures products.Some? ==> r == |products.value|
  {
    |ListOrEmpty(products)|
  }

  /** With no product list there is nothing to show on any page. */
  lemma NoListEmptyPage<T>(currentPage: int, productsPerPage: int)
    ensures CurrentProducts<T>(None, currentPage, productsPerPage) == []
    ensures TotalItems<T>(None) == 0
  {
  }

  lemma PageBounds(page: int, perPage: int)
    requires page >= 1 && perPage >= 1
    ensures 0 <= (page - 1) * perPage <= page * perPage
    ensures page * perPage - perPage == (page - 1) * perPage
  {
  }

  /** Page p of size n shows the products at positions (p-1)*n up to p*n,
      cut off at the end of the list, and never more than n of them. */
  lemma PageWindow<T>(products: seq<T>, page: int, perPage: int)
    requires page >= 1 && perPage >= 1
    ensures CurrentProducts(Some(products), page, perPage) ==
            products[Min((page - 1) * perPage, |products|) .. Min(page * perPage, |products|)]
    ensures |CurrentProducts(Some(products), page, perPage)| <= perPage
  {
    PageBounds(page, perPage);
  }

  /** Pages 1 to k, one after the other. */
  function FirstPages<T>(products: seq<T>, perPage: int, k: nat): seq<T>
  {
    if k == 0 then [] else FirstPages(products, perPage, k - 1) + CurrentProducts(Some(products), k, perPage)
  }

  /** Pages 1 to k together are the first k*n products, in order. */
  lemma {:induction false} FirstPagesArePrefix<T>(products: seq<T>, perPage: int, k: nat)
    requires perPage >= 1
    ensures FirstPages(products, perPage, k) == products[..Min(k * perPage, |products|)]
  {
    if k > 0 {
      FirstPagesArePrefix(products, perPage, k - 1);
      PageWindow(products, k, perPage);
      PageBounds(k, perPage);
      PrefixJoin(products, Min((k - 1) * perPage, |products|), Min(k * perPage, |products|));
    }
  }

  lemma PrefixJoin<T>(s: seq<T>, a: int, b: int)
    requires 0 <= a <= b <= |s|
    ensures s[..a] + s[a..b] == s[..b]
  {
  }

  /** The number of pages, ceil(len / n). */
  function PageCount(len: nat, perPage: int): nat
    requires perPage >= 1
  {
    (len + perPage - 1) / perPage
  }

  /** Walking pages 1 to ceil(len/n) shows the whole list, each product
      once, in catalog order. */
  lemma PagesCoverList<T>(products: seq<T>, perPage: int)
    requires perPage >= 1
    ensures FirstPages(products, perPage, PageCount(|products|, perPage)) == products
  {
    var k := PageCount(|products|, perPage);
    FirstPagesArePrefix(products, perPage, k);
    DivMod(|products| + perPage - 1, perPage);
  }

  lemma DivMod(a: nat, n: int)
    requires n >= 1
    ensures a == (a / n) * n + a % n && 0 <= a % n < n
  {
  }

  lemma MulMonotone(a: int, b: int, n: int)
    requires a <= b && n >= 0
    ensures a * n <= b * n
  {
    assert b * n - a * n == (b - a) * n;
  }

  /** The product at position i is shown on page i/n + 1 and on no other
      page, at position i mod n; so the pages do not overlap. */
  lemma PageOfProduct<T>(products: seq<T>, perPage: int, i: nat, page: int)
    requires perPage >= 1 && i < |products| && page >= 1
    ensures (page - 1) * perPage <= i < page * perPage <==> page == i / perPage + 1
    ensures page == i / perPage + 1 ==>
              i % perPage < |CurrentProducts(Some(products), page, perPage)| &&
              CurrentProducts(Some(products), page, perPage)[i % perPage] == products[i]
  {
    PageWindow(products, page, perPage);
    PageBounds(page, perPage);
    var q, r := i / perPage, i % perPage;
    DivMod(i, perPage);
    if page <= q {
      MulMonotone(page, q, perPage);
    } else if page >= q + 2 {
      MulMonotone(q + 1, page - 1, perPage);
      assert (q + 1) * perPage == q * perPage + perPage;
    } else {
      assert page * perPage == q * perPage + perPage;
    }
  }

  /** The page shown after the category effect has run: the effect runs on
      the first render and whenever the selected category changes, and
      then sets the page back to 1. */
  function PageAfterCategoryEffect(firstRender: bool, previousCategory: Option<int>,
                                   selectedCategory: Option<int>, currentPage: int): (r: int)
    ensures firstRender || previousCategory != selectedCategory ==> r == 1
    ensures !firstRender && previousCategory == selectedCategory ==> r == currentPage
  {
    if firstRender || previousCategory != selectedCategory then 1 else currentPage
  }

  /** After a category change the catalog shows its first n products. */
  lemma CategoryChangeShowsFirstPage<T>(products: seq<T>, perPage: int, previousCategory: Option<int>,
                                        selectedCategory: Option<int>, currentPage: int)
    requires perPage >= 1 && previousCategory != selectedCategory
    ensures CurrentProducts(Some(products),
              PageAfterCategoryEffect(false, previousCategory, selectedCategory, currentPage), perPage) ==
            products[..Min(perPage, |products|)]
  {
    PageWindow(products, 1, perPage);
  }
}
