/** The five-per-page pagination the dashboard and the document list share. */
module Paging {

  const PerPage := 5

  /** `Math.ceil(n / 5)`. */
  function TotalPages(n: nat): (t: nat)
    ensures t * PerPage >= n
    ensures t == 0 || (t - 1) * PerPage < n
  {
    (n + PerPage - 1) / PerPage
  }

  /** Page `page` (from 1): `slice((page - 1) * 5, (page - 1) * 5 + 5)`, cut
      short at the end of the list. */
  function Page<T>(s: seq<T>, page: nat): (r: seq<T>)
    requires page >= 1
    ensures |r| <= PerPage
    ensures |r| > 0 ==> (page - 1) * PerPage + |r| <= |s|
    ensures forall i :: 0 <= i < |r| ==> r[i] == s[(page - 1) * PerPage + i]
    ensures page <= TotalPages(|s|) <==> |r| > 0
    ensures page < TotalPages(|s|) ==> |r| == PerPage
  {
    var start := (page - 1) * PerPage;
    if start >= |s| then []
    else if start + PerPage <= |s| then s[start..start + PerPage]
    else s[start..]
  }

  /** The pages `1..count` laid end to end. */
  function PagesUpTo<T>(s: seq<T>, count: nat): seq<T>
  {
    if count == 0 then [] else PagesUpTo(s, count - 1) + Page(s, count)
  }

  /** Page `page` as a slice of the list, case by case. */
  lemma PageAsSlice<T>(s: seq<T>, page: nat)
    requires page >= 1
    ensures (page - 1) * PerPage >= |s| ==> Page(s, page) == []
    ensures (page - 1) * PerPage < |s| && page * PerPage <= |s| ==>
              Page(s, page) == s[(page - 1) * PerPage..page * PerPage]
    ensures (page - 1) * PerPage < |s| < page * PerPage ==> Page(s, page) == s[(page - 1) * PerPage..]
  {
  }

  lemma {:induction false} PagesUpToPrefix<T>(s: seq<T>, count: nat)
    ensures count * PerPage <= |s| ==> PagesUpTo(s, count) == s[..count * PerPage]
    ensures count * PerPage > |s| ==> PagesUpTo(s, count) == s
  {
    if count > 0 {
      PagesUpToPrefix(s, count - 1);
      PageAsSlice(s, count);
      var start := (count - 1) * PerPage;
      var end := count * PerPage;
      assert end == start + PerPage;
      var prev := PagesUpTo(s, count - 1);
      assert PagesUpTo(s, count) == prev + Page(s, count);
      if start < |s| {
        assert prev == s[..start];
        if end <= |s| {
          assert s[..start] + s[start..end] == s[..end];
        } else {
          assert s[..start] + s[start..] == s;
        }
      } else {
        assert prev == s;
        assert prev + [] == prev;
      }
    }
  }

  /** The pages together show every record once, in order. */
  lemma PagesCoverList<T>(s: seq<T>)
    ensures PagesUpTo(s, TotalPages(|s|)) == s
  {
    var t := TotalPages(|s|);
    PagesUpToPrefix(s, t);
    if t * PerPage <= |s| {
      assert s[..t * PerPage] == s;
    }
  }

  /** The pager appears when there is more than one page, which is when there
      are more than five records. */
  lemma PagerShownExactly(n: nat)
    ensures TotalPages(n) > 1 <==> n > PerPage
  {
  }

  /** "Previous": `Math.max(1, page - 1)`. */
  function PrevPage(page: int): (r: int)
    ensures r >= 1
    ensures page > 1 ==> r == page - 1
    ensures page <= 1 ==> r == 1
  {
    if page - 1 < 1 then 1 else page - 1
  }

  /** "Next": `Math.min(totalPages, page + 1)`. */
  function NextPage(page: int, totalPages: int): (r: int)
    ensures r <= totalPages
    ensures page < totalPages ==> r == page + 1
    ensures page >= totalPages ==> r == totalPages
  {
    if totalPages < page + 1 then totalPages else page + 1
  }

  /** From a page in range, the buttons keep the page in range. */
  lemma ButtonsStayInRange(page: int, totalPages: int)
    requires 1 <= page <= totalPages
    ensures 1 <= PrevPage(page) <= totalPages
    ensures 1 <= NextPage(page, totalPages) <= totalPages
    ensures PrevPage(NextPage(page, totalPages)) <= page
  {
  }
}
