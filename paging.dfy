/** The client-side pagination both listing pages share (ListadoCotizaciones.jsx
    and ListadoClientes.jsx): ten rows a page, the rows of the current page cut
    out with Array.prototype.slice, one button per page when there is more than
    one page, and the choice between the loading text, the error text and the
    table. */
module Paging {
  import opened Wrappers
  import opened Text

  const ItemsPerPage: nat := 10

  /** How Array.prototype.slice reads an index: a negative one counts from the
      end, and the result is clamped to 0..n. */
  function SliceIndex(i: int, n: nat): (k: nat)
    ensures k <= n
    ensures 0 <= i <= n ==> k == i
  {
    if i < 0 then (if n + i < 0 then 0 else n + i)
    else if i > n then n
    else i
  }

  /** `s.slice(start, end)` */
  function JsSlice<T>(s: seq<T>, start: int, end: int): (r: seq<T>)
    ensures |r| <= |s|
  {
    var a, b := SliceIndex(start, |s|), SliceIndex(end, |s|);
    if a < b then s[a..b] else []
  }

  /** `currentItems`: the slice from (page - 1) × 10 up to page × 10. */
  function CurrentItems<T>(s: seq<T>, page: int): seq<T> {
    JsSlice(s, page * ItemsPerPage - ItemsPerPage, page * ItemsPerPage)
  }

  /** `Math.ceil(length / itemsPerPage)` */
  function TotalPages(n: nat): nat {
    (n + ItemsPerPage - 1) / ItemsPerPage
  }

  /** TotalPages is the ceiling of n / 10: the fewest pages of ten that hold n rows. */
  lemma TotalPagesIsCeiling(n: nat)
    ensures TotalPages(n) * ItemsPerPage >= n
    ensures forall k: nat :: k * ItemsPerPage >= n ==> k >= TotalPages(n)
    ensures TotalPages(n) == 0 <==> n == 0
  {
  }

  /** A page never shows more than ten rows. */
  lemma PageSize<T>(s: seq<T>, page: int)
    ensures |CurrentItems(s, page)| <= ItemsPerPage
  {
  }

  /** From page 1 on, row j of a page is row (page - 1) × 10 + j of the list. */
  lemma PageRows<T>(s: seq<T>, page: int, j: int)
    requires page >= 1 && 0 <= j < |CurrentItems(s, page)|
    ensures (page - 1) * ItemsPerPage + j < |s|
    ensures CurrentItems(s, page)[j] == s[(page - 1) * ItemsPerPage + j]
  {
  }

  /** Every row is on exactly one page of 1..TotalPages: row i is row i % 10 of
      page i / 10 + 1. */
  lemma RowOnPage<T>(s: seq<T>, i: nat)
    requires i < |s|
    ensures 1 <= i / ItemsPerPage + 1 <= TotalPages(|s|)
    ensures |CurrentItems(s, i / ItemsPerPage + 1)| > i % ItemsPerPage
    ensures CurrentItems(s, i / ItemsPerPage + 1)[i % ItemsPerPage] == s[i]
  {
    var p := i / ItemsPerPage + 1;
    assert p * ItemsPerPage - ItemsPerPage == (i / ItemsPerPage) * ItemsPerPage;
  }

  /** The pages with a button are never empty, and a page past the last one
      (the current page after the list shrank) shows nothing. */
  lemma PagesInRange<T>(s: seq<T>, page: int)
    ensures 1 <= page <= TotalPages(|s|) ==> CurrentItems(s, page) != []
    ensures page > TotalPages(|s|) ==> CurrentItems(s, page) == []
  {
    TotalPagesIsCeiling(|s|);
    if page > TotalPages(|s|) {
      assert (page - 1) * ItemsPerPage >= TotalPages(|s|) * ItemsPerPage;
    }
  }

  /** Pages 1..k read one after the other. */
  function PagesUpTo<T>(s: seq<T>, k: nat): seq<T> {
    if k == 0 then [] else PagesUpTo(s, k - 1) + CurrentItems(s, k)
  }

  /** Pages 1..k hold the first k × 10 rows (or all of them), in order. */
  lemma {:induction false} PagesPrefix<T>(s: seq<T>, k: nat)
    ensures k * ItemsPerPage <= |s| ==> PagesUpTo(s, k) == s[..k * ItemsPerPage]
    ensures k * ItemsPerPage > |s| ==> PagesUpTo(s, k) == s
  {
    if k > 0 {
      PagesPrefix(s, k - 1);
      var lo := (k - 1) * ItemsPerPage;
      if lo < |s| {
        assert s[..lo] + s[lo..if k * ItemsPerPage <= |s| then k * ItemsPerPage else |s|]
          == s[..if k * ItemsPerPage <= |s| then k * ItemsPerPage else |s|];
      } else {
        assert CurrentItems(s, k) == [];
      }
    }
  }

  /** Reading every page that has a button, in order, gives back the whole list. */
  lemma PagesCoverList<T>(s: seq<T>)
    ensures PagesUpTo(s, TotalPages(|s|)) == s
  {
    TotalPagesIsCeiling(|s|);
    PagesPrefix(s, TotalPages(|s|));
  }

  /** The page buttons: 1..TotalPages, shown only when there is more than one page. */
  function PageButtons(n: nat): (r: seq<int>)
    ensures TotalPages(n) > 1 ==> |r| == TotalPages(n)
    ensures TotalPages(n) <= 1 ==> r == []
    ensures forall i :: 0 <= i < |r| ==> r[i] == i + 1
  {
    if TotalPages(n) > 1 then seq(TotalPages(n), i => i + 1) else []
  }

  /** The button of the current page is the one marked active. */
  predicate Active(currentPage: int, number: int) {
    currentPage == number
  }

  /** What a listing page shows. */
  datatype Screen = LoadingText | ErrorText(message: string) | Table

  /** Loading first, then an error message if there is one (a truthy one), then the table. */
  function SelectScreen(loading: bool, error: Option<string>): (v: Screen)
    ensures v == LoadingText <==> loading
    ensures v.ErrorText? <==> !loading && Truthy(error)
    ensures v.ErrorText? ==> v.message == error.value
    ensures v == Table <==> !loading && !Truthy(error)
  {
    if loading then LoadingText
    else if Truthy(error) then ErrorText(error.value)
    else Table
  }
}
