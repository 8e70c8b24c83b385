/**
 * The pure parts of the admin products page: the filter over the product list, its
 * pagination, and the list updates that follow an add, an edit and a delete.
 */
module Products {
  import opened Barcode

  /** A product as the page holds it. */
  datatype Product = Product(
    id: int,
    name: string,
    description: string,
    price: real,
    inStock: int,
    category: string)

  /** The filter state: a category name or `"all"`, and `"all"`, `"in-stock"` or `"out-of-stock"`. */
  datatype Filters = Filters(category: string, inStock: string)

  const ProductsPerPage: nat := 10

  function Min(a: int, b: int): int { if a <= b then a else b }

  function Max(a: int, b: int): int { if a <= b then b else a }

  /** `toLowerCase()` on ASCII letters; other characters are kept. */
  function LowerChar(c: char): char {
    if 'A' <= c <= 'Z' then (c as int + 32) as char else c
  }

  function Lower(s: string): (r: string)
    ensures |r| == |s|
    ensures forall i :: 0 <= i < |s| ==> r[i] == LowerChar(s[i])
  {
    if s == [] then [] else [LowerChar(s[0])] + Lower(s[1..])
  }

  /** `s.includes(t)`: `t` occurs in `s` at some position. */
  predicate Includes(s: string, t: string) {
    t <= s || (s != [] && Includes(s[1..], t))
  }

  /** The test `filteredProducts` applies to one product, branch by branch. */
  predicate Keep(md5: string -> HexDigest, filters: Filters, searchTerm: string, p: Product) {
    if filters.category != "all" && p.category != filters.category then false
    else if filters.inStock != "all" && filters.inStock == "in-stock" && p.inStock == 0 then false
    else if filters.inStock != "all" && filters.inStock == "out-of-stock" && p.inStock > 0 then false
    else
      || Includes(Lower(p.name), Lower(searchTerm))
      || Includes(GenerateBarcodeNumbers(md5, IntToDecimal(p.id)), Lower(searchTerm))
  }

  /** `filteredProducts`. */
  function FilteredProducts(md5: string -> HexDigest, products: seq<Product>, filters: Filters,
                            searchTerm: string): seq<Product>
  {
    if products == [] then []
    else
      (if Keep(md5, filters, searchTerm, products[0]) then [products[0]] else [])
      + FilteredProducts(md5, products[1..], filters, searchTerm)
  }

  /** `a` is `b` with some elements removed, the rest in their order. */
  predicate IsSubsequence(a: seq<Product>, b: seq<Product>) {
    a == [] || (b != [] && if a[0] == b[0] then IsSubsequence(a[1..], b[1..]) else IsSubsequence(a, b[1..]))
  }

  /** What the filters and the search term mean for one product. */
  predicate Selected(md5: string -> HexDigest, filters: Filters, searchTerm: string, p: Product) {
    && (filters.category == "all" || p.category == filters.category)
    && (filters.inStock == "in-stock" ==> p.inStock != 0)
    && (filters.inStock == "out-of-stock" ==> p.inStock <= 0)
    && (|| Includes(Lower(p.name), Lower(searchTerm))
        || Includes(GenerateBarcodeNumbers(md5, IntToDecimal(p.id)), Lower(searchTerm)))
  }

  /** The filtered list keeps exactly the selected products, in their order. */
  lemma {:induction false} FilteredProductsSelects(md5: string -> HexDigest, products: seq<Product>,
                                                   filters: Filters, searchTerm: string)
    ensures IsSubsequence(FilteredProducts(md5, products, filters, searchTerm), products)
    ensures forall p :: p in FilteredProducts(md5, products, filters, searchTerm) <==>
      p in products && Selected(md5, filters, searchTerm, p)
  {
    var kept := FilteredProducts(md5, products, filters, searchTerm);
    if products != [] {
      var rest := FilteredProducts(md5, products[1..], filters, searchTerm);
      FilteredProductsSelects(md5, products[1..], filters, searchTerm);
      assert products == [products[0]] + products[1..];
      if Keep(md5, filters, searchTerm, products[0]) {
        assert kept == [products[0]] + rest;
        assert kept[1..] == rest;
      } else {
        assert kept == rest;
        assert !Selected(md5, filters, searchTerm, products[0]);
        if kept != [] {
          assert Selected(md5, filters, searchTerm, kept[0]);
        }
      }
    }
  }

  /** One more product is kept at the end of the filtered list exactly when it passes the
      test; together with the empty list this fixes the filtered list, duplicates included. */
  lemma {:induction false} FilteredProductsAppend(md5: string -> HexDigest, products: seq<Product>,
                                                  p: Product, filters: Filters, searchTerm: string)
    ensures FilteredProducts(md5, products + [p], filters, searchTerm) ==
      FilteredProducts(md5, products, filters, searchTerm)
      + (if Keep(md5, filters, searchTerm, p) then [p] else [])
  {
    if products == [] {
      assert products + [p] == [p];
    } else {
      assert (products + [p])[1..] == products[1..] + [p];
      FilteredProductsAppend(md5, products[1..], p, filters, searchTerm);
    }
  }

  lemma {:induction false} IncludesEmpty(s: string)
    ensures Includes(s, "")
  {
  }

  /** With both filters on `"all"` and an empty search, every product is listed. */
  lemma {:induction false} NoFilterKeepsAll(md5: string -> HexDigest, products: seq<Product>)
    ensures FilteredProducts(md5, products, Filters("all", "all"), "") == products
  {
    if products != [] {
      NoFilterKeepsAll(md5, products[1..]);
      assert Lower("") == "";
      IncludesEmpty(Lower(products[0].name));
      assert products == [products[0]] + products[1..];
    }
  }

  /** An empty search term matches every name, so only the two filters decide. */
  lemma {:induction false} EmptySearchFiltersOnly(md5: string -> HexDigest, products: seq<Product>, filters: Filters)
    ensures forall p :: p in FilteredProducts(md5, products, filters, "") <==>
      && p in products
      && (filters.category == "all" || p.category == filters.category)
      && (filters.inStock == "in-stock" ==> p.inStock != 0)
      && (filters.inStock == "out-of-stock" ==> p.inStock <= 0)
  {
    FilteredProductsSelects(md5, products, filters, "");
    assert Lower("") == "";
    forall p | p in products
      ensures Includes(Lower(p.name), Lower(""))
    {
      IncludesEmpty(Lower(p.name));
    }
  }

  /** `Array.prototype.slice(start, end)`: a negative index counts from the end, both are
      clamped to the list. */
  function JsSlice(s: seq<Product>, start: int, end: int): seq<Product> {
    var from := if start < 0 then Max(|s| + start, 0) else Min(start, |s|);
    var to := if end < 0 then Max(|s| + end, 0) else Min(end, |s|);
    if from < to then s[from..to] else []
  }

  /** `currentProducts`. */
  function CurrentProducts(filtered: seq<Product>, currentPage: int): seq<Product> {
    var indexOfLastProduct := currentPage * ProductsPerPage;
    var indexOfFirstProduct := indexOfLastProduct - ProductsPerPage;
    JsSlice(filtered, indexOfFirstProduct, indexOfLastProduct)
  }

  /** `Math.ceil(count / productsPerPage)`. */
  function TotalPages(count: nat): (pages: nat)
    ensures count == 0 ==> pages == 0
    ensures count > 0 ==> (pages - 1) * ProductsPerPage < count <= pages * ProductsPerPage
  {
    (count + ProductsPerPage - 1) / ProductsPerPage
  }

  /** Page `p` (from 1) shows the products from `(p - 1) * 10` up to `p * 10`, at most 10. */
  lemma CurrentPageWindow(filtered: seq<Product>, page: int)
    requires page >= 1
    ensures CurrentProducts(filtered, page) ==
      filtered[Min((page - 1) * ProductsPerPage, |filtered|)..Min(page * ProductsPerPage, |filtered|)]
    ensures |CurrentProducts(filtered, page)| <= ProductsPerPage
  {
  }

  /** Pages 1 to `k`, one after another. */
  function PagesUpTo(filtered: seq<Product>, k: nat): seq<Product> {
    if k == 0 then [] else PagesUpTo(filtered, k - 1) + CurrentProducts(filtered, k)
  }

  lemma {:induction false} PagesUpToPrefix(filtered: seq<Product>, k: nat)
    ensures PagesUpTo(filtered, k) == filtered[..Min(k * ProductsPerPage, |filtered|)]
  {
    if k > 0 {
      PagesUpToPrefix(filtered, k - 1);
      CurrentPageWindow(filtered, k);
      var a := Min((k - 1) * ProductsPerPage, |filtered|);
      var b := Min(k * ProductsPerPage, |filtered|);
      assert filtered[..a] + filtered[a..b] == filtered[..b];
    }
  }

  /** The pages 1 to `totalPages` together list every filtered product once, in order. */
  lemma PagesCoverList(filtered: seq<Product>)
    ensures PagesUpTo(filtered, TotalPages(|filtered|)) == filtered
  {
    PagesUpToPrefix(filtered, TotalPages(|filtered|));
    assert filtered[..|filtered|] == filtered;
  }

  function Ids(products: seq<Product>): (ids: seq<int>)
    ensures |ids| == |products|
    ensures forall i :: 0 <= i < |products| ==> ids[i] == products[i].id
  {
    if products == [] then [] else [products[0].id] + Ids(products[1..])
  }

  /** `products.map(p => p.id === updated.id ? updated : p)` after a successful edit. */
  function ReplaceById(products: seq<Product>, updated: Product): seq<Product> {
    if products == [] then []
    else
      [if products[0].id == updated.id then updated else products[0]]
      + ReplaceById(products[1..], updated)
  }

  /** `products.filter(p => p.id !== id)` after a successful delete. */
  function RemoveById(products: seq<Product>, id: int): seq<Product> {
    if products == [] then []
    else (if products[0].id != id then [products[0]] else []) + RemoveById(products[1..], id)
  }

  /** An edit keeps the length, the order and the ids; it replaces the products carrying
      the edited id and leaves every other one where it was. */
  lemma {:induction false} ReplaceByIdInPlace(products: seq<Product>, updated: Product)
    ensures |ReplaceById(products, updated)| == |products|
    ensures Ids(ReplaceById(products, updated)) == Ids(products)
    ensures forall i :: 0 <= i < |products| && products[i].id == updated.id ==>
      ReplaceById(products, updated)[i] == updated
    ensures forall i :: 0 <= i < |products| && products[i].id != updated.id ==>
      ReplaceById(products, updated)[i] == products[i]
  {
    if products != [] {
      ReplaceByIdInPlace(products[1..], updated);
    }
  }

  /** Editing with an id no product has changes nothing; editing twice is editing once. */
  lemma {:induction false} ReplaceByIdStable(products: seq<Product>, updated: Product)
    ensures updated.id !in Ids(products) ==> ReplaceById(products, updated) == products
    ensures ReplaceById(ReplaceById(products, updated), updated) == ReplaceById(products, updated)
  {
    if products != [] {
      ReplaceByIdStable(products[1..], updated);
      assert products == [products[0]] + products[1..];
    }
  }

  /** A delete keeps the other products in their order and drops every product carrying the id. */
  lemma {:induction false} RemoveByIdRemoves(products: seq<Product>, id: int)
    ensures IsSubsequence(RemoveById(products, id), products)
    ensures forall p :: p in RemoveById(products, id) <==> p in products && p.id != id
  {
    var kept := RemoveById(products, id);
    if products != [] {
      var rest := RemoveById(products[1..], id);
      RemoveByIdRemoves(products[1..], id);
      assert products == [products[0]] + products[1..];
      if products[0].id != id {
        assert kept[1..] == rest;
      } else {
        assert kept == rest;
        if kept != [] {
          assert kept[0].id != id;
        }
      }
    }
  }

  /** A delete shortens the list by the number of products carrying the id. */
  lemma {:induction false} RemoveByIdCount(products: seq<Product>, id: int)
    ensures |RemoveById(products, id)| == |products| - multiset(Ids(products))[id]
  {
    if products != [] {
      RemoveByIdCount(products[1..], id);
      assert Ids(products) == [products[0].id] + Ids(products[1..]);
    }
  }

  /** Deleting a freshly added product restores the list: the delete undoes the add. */
  lemma {:induction false} AddThenDelete(products: seq<Product>, added: Product)
    requires added.id !in Ids(products)
    ensures RemoveById(products + [added], added.id) == products
  {
    if products != [] {
      assert (products + [added])[1..] == products[1..] + [added];
      assert Ids(products) == [products[0].id] + Ids(products[1..]);
      AddThenDelete(products[1..], added);
      assert products == [products[0]] + products[1..];
    }
  }
}
