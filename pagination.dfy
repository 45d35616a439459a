/** Fixed-size pages over a list, as both country lists compute them. */
module Pagination {

  import opened Seqs

  /** `Math.ceil(n / d)` on naturals: the fewest pages of `d` items that hold `n` items. */
  function CeilDiv(n: nat, d: nat): (r: nat)
    requires d > 0
    ensures r * d >= n
    ensures r == 0 || (r - 1) * d < n
  {
    var q := (n + d - 1) / d;
    assert q * d <= n + d - 1 < q * d + d;
    q
  }

  /** Page number `page` (counting from 1) with `per` items to a page: `s.slice(start, start + per)` for `start = (page - 1) * per`. */
  function PageOf<T>(s: seq<T>, page: int, per: nat): (r: seq<T>)
    ensures |r| <= per
    ensures page >= 1 ==> r == s[Min(PageStart(page, per), |s|)..Min(PageStart(page, per) + per, |s|)]
  {
    var start := PageStart(page, per);
    Slice(s, start, start + per)
  }

  /** Index of the first item on page `page`. */
  function PageStart(page: int, per: nat): (r: int)
    ensures page >= 1 ==> r >= 0
  {
    (page - 1) * per
  }

  /** Pages 1 to `k`, one after the other. */
  function FirstPages<T>(s: seq<T>, per: nat, k: nat): seq<T>
  {
    if k == 0 then [] else FirstPages(s, per, k - 1) + PageOf(s, k, per)
  }

  /** The first `k` pages are the first `k * per` items. */
  lemma {:induction false} FirstPagesArePrefix<T>(s: seq<T>, per: nat, k: nat)
    ensures FirstPages(s, per, k) == s[..Min(k * per, |s|)]
  {
    if k > 0 {
      FirstPagesArePrefix(s, per, k - 1);
      assert PageStart(k, per) == (k - 1) * per;
      assert (k - 1) * per + per == k * per;
      var a, b := Min((k - 1) * per, |s|), Min(k * per, |s|);
      assert s[..a] + s[a..b] == s[..b];
    }
  }

  /** Pages 1 to `CeilDiv(|s|, per)`, concatenated, give back `s`: every item is shown on exactly one page, in order. */
  lemma AllPagesReproduce<T>(s: seq<T>, per: nat)
    requires per > 0
    ensures FirstPages(s, per, CeilDiv(|s|, per)) == s
  {
    FirstPagesArePrefix(s, per, CeilDiv(|s|, per));
  }

  /** A page past the last one is empty. */
  lemma PagePastEndIsEmpty<T>(s: seq<T>, per: nat, page: int)
    requires per > 0 && page > CeilDiv(|s|, per)
    ensures PageOf(s, page, per) == []
  {
    var k := CeilDiv(|s|, per);
    assert PageStart(page, per) == (page - 1) * per;
    assert (page - 1) * per >= k * per;
  }
}
