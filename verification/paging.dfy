/** Page arithmetic shared by the campaign list and the influencer's own
    application list: page `page` of size `limit` is the inclusive row range
    `[offset, offset + limit - 1]` with `offset = (page - 1) * limit`, and the
    page count is `ceil(total / limit)`. */
module Paging {
  import opened Seqs

  const DefaultPage := 1
  const DefaultLimit := 20
  const MaxLimit := 100

  /** The bounds the list-query schemas guarantee. */
  predicate ValidPaging(page: int, limit: int)
  {
    1 <= page && 1 <= limit <= MaxLimit
  }

  /** `Math.ceil(total / limit)`: the least number of pages of size `limit`
      that hold `total` rows. */
  function TotalPages(total: nat, limit: int): (n: nat)
    requires 1 <= limit
    ensures total <= n * limit
    ensures n > 0 ==> (n - 1) * limit < total
    ensures n == 0 <==> total == 0
  {
    CeilDivision(total, limit);
    (total + limit - 1) / limit
  }

  lemma CeilDivision(total: nat, limit: int)
    requires 1 <= limit
    ensures var n := (total + limit - 1) / limit;
      n >= 0 && total <= n * limit && (n > 0 ==> (n - 1) * limit < total) && (n == 0 <==> total == 0)
  {
    var a := total + limit - 1;
    var n := a / limit;
    var m := a % limit;
    assert a == n * limit + m && 0 <= m < limit;
    assert n * limit == a - m;
    assert (n - 1) * limit == a - m - limit;
  }

  /** Page `page` of `rows`: the store's inclusive range from the page's
      offset to one before the next page's offset. It is empty when the
      offset lies past the last row, and full when the next page's offset
      still lies within the table. */
  function Page<T>(rows: seq<T>, page: int, limit: int): (r: seq<T>)
    requires ValidPaging(page, limit)
    ensures |r| <= limit
    ensures forall k :: 0 <= k < |r| ==> (page - 1) * limit + k < |rows| && r[k] == rows[(page - 1) * limit + k]
    ensures |r| > 0 <==> (page - 1) * limit < |rows|
    ensures (page - 1) * limit + limit <= |rows| ==> |r| == limit
  {
    MulMono(0, page - 1, limit);
    Range(rows, (page - 1) * limit, (page - 1) * limit + limit - 1)
  }

  /** Pages `1 .. ceil(total / limit)` are the non-empty ones, and all of
      them but the last are full. */
  lemma PageCount<T>(rows: seq<T>, page: int, limit: int)
    requires ValidPaging(page, limit)
    ensures |Page(rows, page, limit)| > 0 <==> page <= TotalPages(|rows|, limit)
    ensures page < TotalPages(|rows|, limit) ==> |Page(rows, page, limit)| == limit
  {
    PageBounds(|rows|, page, limit);
  }

  lemma PageBounds(total: nat, page: int, limit: int)
    requires ValidPaging(page, limit)
    ensures 0 <= (page - 1) * limit
    ensures (page - 1) * limit < total <==> page <= TotalPages(total, limit)
    ensures page < TotalPages(total, limit) ==> (page - 1) * limit + limit <= total
  {
    var n := TotalPages(total, limit);
    MulMono(0, page - 1, limit);
    assert (page - 1) * limit + limit == page * limit;
    if page <= n {
      MulMono(page - 1, n - 1, limit);
    } else {
      MulMono(n, page - 1, limit);
    }
    if page < n {
      MulMono(page, n - 1, limit);
    }
  }

  lemma MulMono(a: int, b: int, c: nat)
    requires a <= b
    ensures a * c <= b * c
  {
    assert b * c - a * c == (b - a) * c;
  }

  /** A page of an ordered listing keeps the listing's order. */
  lemma PageKeepsOrder<T>(rows: seq<T>, page: int, limit: int, key: T -> int)
    requires ValidPaging(page, limit) && Descending(rows, key)
    ensures Descending(Page(rows, page, limit), key)
  {
    var off := (page - 1) * limit;
    MulMono(0, page - 1, limit);
    var p := Page(rows, page, limit);
    assert p == Range(rows, off, off + limit - 1);
    forall i, j | 0 <= i < j < |p| ensures key(p[i]) > key(p[j]) {
      assert p[i] == rows[off + i] && p[j] == rows[off + j];
    }
  }

  /** Every row of a listing shows up on exactly one page: row `i` is entry
      `i % limit` of page `i / limit + 1`, and that page exists. */
  lemma {:induction false} RowOnItsPage<T>(rows: seq<T>, i: int, limit: int)
    requires 0 <= i < |rows| && 1 <= limit <= MaxLimit
    ensures ValidPaging(i / limit + 1, limit)
    ensures i / limit + 1 <= TotalPages(|rows|, limit)
    ensures var p := Page(rows, i / limit + 1, limit);
      i % limit < |p| && p[i % limit] == rows[i]
  {
    var page := i / limit + 1;
    var k := i % limit;
    assert i == (page - 1) * limit + k;
    PageCount(rows, page, limit);
    var p := Page(rows, page, limit);
    assert p == Range(rows, (page - 1) * limit, (page - 1) * limit + limit - 1);
  }

  /** The pages, read in order, give back the whole listing. */
  function Pages<T>(rows: seq<T>, limit: int, n: nat): seq<T>
    requires 1 <= limit <= MaxLimit
  {
    if n == 0 then [] else Pages(rows, limit, n - 1) + Page(rows, n, limit)
  }

  lemma {:induction false} PagesArePrefix<T>(rows: seq<T>, limit: int, n: nat)
    requires 1 <= limit <= MaxLimit
    ensures 0 <= n * limit
    ensures Pages(rows, limit, n) == rows[..Min(n * limit, |rows|)]
  {
    MulMono(0, n, limit);
    if n > 0 {
      PagesArePrefix(rows, limit, n - 1);
      var lo := (n - 1) * limit;
      assert n * limit == lo + limit;
      var p := Page(rows, n, limit);
      assert p == Range(rows, lo, lo + limit - 1);
      if lo < |rows| {
        var hi := Min(lo + limit, |rows|);
        assert p == rows[lo..hi];
        assert rows[..lo] + rows[lo..hi] == rows[..hi];
      }
    }
  }

  /** Reading pages `1 .. ceil(total / limit)` in order reproduces the whole
      listing: nothing is skipped and nothing is repeated. */
  lemma AllPagesCoverListing<T>(rows: seq<T>, limit: int)
    requires 1 <= limit <= MaxLimit
    ensures Pages(rows, limit, TotalPages(|rows|, limit)) == rows
  {
    var n := TotalPages(|rows|, limit);
    PagesArePrefix(rows, limit, n);
    assert rows[..|rows|] == rows;
  }
}
