/** Page arithmetic shared by the list pages: `Array.prototype.slice`, the page window and `Math.ceil(len / size)`. */
module Paging {

  function Min(a: int, b: int): int { if a <= b then a else b }

  function Max(a: int, b: int): int { if a <= b then b else a }

  /** How `slice` reads one index: a negative index counts back from the end, then it is clamped to `[0, len]`. */
  function SliceIndex(i: int, len: nat): (r: nat)
    ensures r <= len
    ensures i >= 0 ==> r == Min(i, len)
    ensures i < 0 ==> r == Max(len + i, 0)
  {
    if i < 0 then Max(len + i, 0) else Min(i, len)
  }

  /** `xs.slice(start, end)`: the elements between the two normalised indices, empty when they cross. */
  function JsSlice<T>(xs: seq<T>, start: int, end: int): (r: seq<T>)
    ensures |r| <= |xs|
    ensures 0 <= start <= end ==> r == xs[Min(start, |xs|)..Min(end, |xs|)]
  {
    var s, e := SliceIndex(start, |xs|), SliceIndex(end, |xs|);
    if s < e then xs[s..e] else []
  }

  /** The items shown on 1-based page `page` with `size` items per page: `xs.slice(page * size - size, page * size)`. */
  function PageSlice<T>(xs: seq<T>, page: int, size: nat): (r: seq<T>)
    ensures page >= 1 ==> |r| <= size
    ensures page >= 1 ==> r == xs[Min((page - 1) * size, |xs|)..Min(page * size, |xs|)]
    ensures page >= 1 && (page - 1) * size >= |xs| ==> r == []
  {
    var last := page * size;
    if page >= 1 then
      assert 0 <= (page - 1) * size == last - size;
      JsSlice(xs, last - size, last)
    else
      JsSlice(xs, last - size, last)
  }

  /** `Math.ceil(n / size)`: the number of pages needed for `n` items. */
  function CeilDiv(n: nat, size: nat): (r: nat)
    requires size > 0
    ensures r * size >= n
    ensures r == 0 || (r - 1) * size < n
    ensures n == 0 <==> r == 0
  {
    var q := (n + size - 1) / size;
    var m := (n + size - 1) % size;
    assert q * size + m == n + size - 1 && 0 <= m < size;
    assert (q - 1) * size == q * size - size;
    q
  }

  /** A list needs more than one page exactly when it holds more than one page's worth of items. */
  function MoreThanOnePage(n: nat, size: nat): (r: bool)
    requires size > 0
    ensures r <==> n > size
  {
    var t := CeilDiv(n, size);
    assert t <= 1 ==> t * size <= size;
    assert t >= 2 ==> (t - 1) * size >= size;
    t > 1
  }

  /** Pages 1 to `k`, one after the other. */
  function Pages<T>(xs: seq<T>, size: nat, k: nat): seq<T>
  {
    if k == 0 then [] else Pages(xs, size, k - 1) + PageSlice(xs, k, size)
  }

  /** The first `k` pages are exactly the first `k * size` items: no gap, no overlap, in order. */
  lemma {:induction false} PagesCoverPrefix<T>(xs: seq<T>, size: nat, k: nat)
    ensures Pages(xs, size, k) == xs[..Min(k * size, |xs|)]
  {
    if k > 0 {
      PagesCoverPrefix(xs, size, k - 1);
      assert (k - 1) * size + size == k * size;
      var a, b := Min((k - 1) * size, |xs|), Min(k * size, |xs|);
      assert xs[..a] + xs[a..b] == xs[..b];
    }
  }

  /** All `ceil(|xs| / size)` pages together are the whole list. */
  lemma AllPagesCoverList<T>(xs: seq<T>, size: nat)
    requires size > 0
    ensures Pages(xs, size, CeilDiv(|xs|, size)) == xs
  {
    PagesCoverPrefix(xs, size, CeilDiv(|xs|, size));
  }

  /** Page `p` is non-empty exactly when some item lies before its end, i.e. `(p - 1) * size < |xs|`. */
  lemma {:induction false} PageNonEmptyIff<T>(xs: seq<T>, page: int, size: nat)
    requires page >= 1 && size > 0
    ensures PageSlice(xs, page, size) != [] <==> (page - 1) * size < |xs|
  {
    if (page - 1) * size < |xs| {
      assert (page - 1) * size < page * size;
      assert |PageSlice(xs, page, size)| > 0;
    }
  }
}
