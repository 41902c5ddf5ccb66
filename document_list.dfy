/** "My documents": the signed-in user's own records, searched, narrowed by
    visibility, sorted and paged, with the totals shown above the list. */
module DocumentList {
  import opened Types
  import opened Text
  import opened Seqs
  import opened Store
  import opened Paging

  /** The sort selector ('recent', 'popular', 'rating', 'title'). */
  datatype SortKey = ByRecent | ByViews | ByRating | ByTitle

  /** This view's search looks only at the title, the summary and the tags. */
  predicate MatchesListQuery(d: Document, query: string)
  {
    var q := Lower(query);
    || Includes(Lower(d.title), q)
    || Includes(Lower(d.summary), q)
    || (exists t :: t in d.tags && Includes(Lower(t), q))
  }

  /** A hit here is a hit in the store-wide search too. */
  lemma ListQueryIsNarrower(d: Document, query: string)
    ensures MatchesListQuery(d, query) ==> MatchesQuery(d, query)
  {
  }

  /** The store-wide search also reads the content: a query found only there
      is missed here. */
  lemma ListQueryIgnoresContent()
    ensures var d := Document("1", "a", "b", "a", [], "a", "u", 0, 0, Public, 0.0, 0, 0, None, None, None, "", []);
            MatchesQuery(d, "b") && !MatchesListQuery(d, "b")
  {
    var d := Document("1", "a", "b", "a", [], "a", "u", 0, 0, Public, 0.0, 0, 0, None, None, None, "", []);
    assert Lower("a") == "a" && Lower("b") == "b";
    assert OccursAt(Lower(d.content), Lower("b"), 0);
    assert !OccursAt("a", "b", 0) by {
      assert "a"[0..1] == "a";
    }
  }

  predicate MostViewedFirst(a: Document, b: Document)
  {
    a.views >= b.views
  }

  predicate BestRatedFirst(a: Document, b: Document)
  {
    a.rating >= b.rating
  }

  /** `a.title.localeCompare(b.title)`, compared by code point. */
  predicate TitleOrder(a: Document, b: Document)
  {
    StrLe(a.title, b.title)
  }

  lemma SortKeysArePreorders()
    ensures TotalPreorder(MostViewedFirst)
    ensures TotalPreorder(BestRatedFirst)
    ensures TotalPreorder(TitleOrder)
  {
    forall a: Document, b: Document ensures TitleOrder(a, b) || TitleOrder(b, a) {
      StrLeTotal(a.title, b.title);
    }
    forall a: Document, b: Document, c: Document | TitleOrder(a, b) && TitleOrder(b, c)
      ensures TitleOrder(a, c)
    {
      StrLeTransitive(a.title, b.title, c.title);
    }
  }

  function OrderFor(key: SortKey): (Document, Document) -> bool
  {
    match key
    case ByRecent => NewerOrSame
    case ByViews => MostViewedFirst
    case ByRating => BestRatedFirst
    case ByTitle => TitleOrder
  }

  lemma OrderForIsPreorder(key: SortKey)
    ensures TotalPreorder(OrderFor(key))
  {
    NewerOrSameIsPreorder();
    SortKeysArePreorders();
  }

  /** The search step (skipped for a blank query), then the visibility
      selector (`None` is "all"), then the sort. */
  function ListView(mine: seq<Document>, query: string, only: Option<Visibility>, key: SortKey): seq<Document>
  {
    var hits := if |Trim(query)| == 0 then mine else Filter(mine, (d: Document) => MatchesListQuery(d, query));
    var kept := if only.None? then hits else Filter(hits, (d: Document) => d.visibility == only.value);
    SortBy(kept, OrderFor(key))
  }

  /** The list holds each of the user's records that passes the search and the
      selector, as many times as it is stored, in the order of the sort key. */
  lemma ListViewContents(mine: seq<Document>, query: string, only: Option<Visibility>, key: SortKey, d: Document)
    ensures SortedBy(ListView(mine, query, only, key), OrderFor(key))
    ensures multiset(ListView(mine, query, only, key))[d] ==
              if (|Trim(query)| == 0 || MatchesListQuery(d, query)) && (only.None? || d.visibility == only.value)
              then multiset(mine)[d] else 0
  {
    OrderForIsPreorder(key);
    var hits := if |Trim(query)| == 0 then mine else Filter(mine, (d: Document) => MatchesListQuery(d, query));
    var kept := if only.None? then hits else Filter(hits, (d: Document) => d.visibility == only.value);
    SortBySorted(kept, OrderFor(key));
    if |Trim(query)| != 0 {
      FilterCount(mine, (d: Document) => MatchesListQuery(d, query), d);
    }
    if only.Some? {
      FilterCount(hits, (d: Document) => d.visibility == only.value, d);
    }
  }

  /** The label beside each record; any other string is "unknown". */
  function VisibilityLabel(v: string): string
  {
    if v == "private" then "Riêng tư"
    else if v == "group" then "Nhóm"
    else if v == "public" then "Công khai"
    else "Không xác định"
  }

  /** The three visibilities have three different labels, none of them the
      fallback. */
  lemma VisibilityLabelsDistinct(a: Visibility, b: Visibility)
    ensures VisibilityLabel(VisibilityName(a)) == VisibilityLabel(VisibilityName(b)) <==> a == b
    ensures VisibilityLabel(VisibilityName(a)) != "Không xác định"
  {
  }

  /** The mean rating of the user's records, or `None` (shown as "0.0") when
      there are none. */
  function AverageRating(mine: seq<Document>): Option<real>
  {
    if |mine| == 0 then None else Some(SumReal(mine, Rating) / (|mine| as real))
  }

  lemma {:induction false} SumOfRatingsBounded(mine: seq<Document>)
    requires RatingsInRange(mine)
    ensures 0.0 <= SumReal(mine, Rating) <= 5.0 * (|mine| as real)
  {
    if |mine| > 0 {
      SumOfRatingsBounded(mine[1..]);
    }
  }

  /** With every average in 0..5, so is the mean of averages. */
  lemma AverageRatingInRange(mine: seq<Document>)
    requires RatingsInRange(mine)
    ensures AverageRating(mine).None? <==> |mine| == 0
    ensures AverageRating(mine).Some? ==> 0.0 <= AverageRating(mine).value <= 5.0
  {
    if |mine| > 0 {
      SumOfRatingsBounded(mine);
      DivideBounds(SumReal(mine, Rating), |mine| as real, 5.0);
    }
  }

  /** The view's own state. */
  class DocumentListView {
    var sortBy: SortKey
    var filterBy: Option<Visibility>
    var searchQuery: string
    var currentPage: nat

    ghost predicate Valid()
      reads this
    {
      currentPage >= 1
    }

    constructor ()
      ensures Valid()
      ensures sortBy == ByRecent && filterBy == None && searchQuery == "" && currentPage == 1
    {
      sortBy := ByRecent;
      filterBy := None;
      searchQuery := "";
      currentPage := 1;
    }

    /** Any change of sort, selector or search text returns to page 1. */
    method SetSortBy(key: SortKey)
      requires Valid()
      modifies this
      ensures Valid()
      ensures sortBy == key && filterBy == old(filterBy) && searchQuery == old(searchQuery)
      ensures currentPage == if key != old(sortBy) then 1 else old(currentPage)
    {
      if key != sortBy {
        currentPage := 1;
      }
      sortBy := key;
    }

    method SetFilterBy(only: Option<Visibility>)
      requires Valid()
      modifies this
      ensures Valid()
      ensures filterBy == only && sortBy == old(sortBy) && searchQuery == old(searchQuery)
      ensures currentPage == if only != old(filterBy) then 1 else old(currentPage)
    {
      if only != filterBy {
        currentPage := 1;
      }
      filterBy := only;
    }

    method SetSearchQuery(query: string)
      requires Valid()
      modifies this
      ensures Valid()
      ensures searchQuery == query && sortBy == old(sortBy) && filterBy == old(filterBy)
      ensures currentPage == if query != old(searchQuery) then 1 else old(currentPage)
    {
      if query != searchQuery {
        currentPage := 1;
      }
      searchQuery := query;
    }

    method GoToPage(page: nat, totalPages: nat)
      requires 1 <= page <= totalPages
      modifies this
      ensures Valid()
      ensures currentPage == page
      ensures sortBy == old(sortBy) && filterBy == old(filterBy) && searchQuery == old(searchQuery)
    {
      currentPage := page;
    }

    method PreviousPage()
      modifies this
      ensures Valid()
      ensures currentPage == PrevPage(old(currentPage))
      ensures sortBy == old(sortBy) && filterBy == old(filterBy) && searchQuery == old(searchQuery)
    {
      currentPage := PrevPage(currentPage);
    }

    /** The "next" button is shown only when the list is longer than a page. */
    method NextPageClick(totalPages: nat)
      requires Valid() && totalPages > 1
      modifies this
      ensures Valid()
      ensures currentPage == NextPage(old(currentPage), totalPages)
      ensures sortBy == old(sortBy) && filterBy == old(filterBy) && searchQuery == old(searchQuery)
    {
      currentPage := NextPage(currentPage, totalPages);
    }

    /** The current page of the user's list, the page count and whether the
        pager is drawn (more than five records). */
    method Visible(store: AppStore) returns (shown: seq<Document>, totalPages: nat, pager: bool)
      requires Valid()
      ensures shown == Page(ListView(UserDocuments(store.documents, store.user.id), searchQuery, filterBy, sortBy), currentPage)
      ensures totalPages == TotalPages(|ListView(UserDocuments(store.documents, store.user.id), searchQuery, filterBy, sortBy)|)
      ensures pager <==> totalPages > 1
    {
      var list := ListView(UserDocuments(store.documents, store.user.id), searchQuery, filterBy, sortBy);
      shown := Page(list, currentPage);
      totalPages := TotalPages(|list|);
      pager := |list| > PerPage;
      PagerShownExactly(|list|);
    }

    /** The delete button asks first; only a confirmed delete reaches the store. */
    method Delete(store: AppStore, docId: string, confirmed: bool)
      modifies store
      ensures confirmed ==> store.documents == RemoveId(old(store.documents), docId)
      ensures !confirmed ==> store.documents == old(store.documents)
      ensures confirmed ==>
                store.selectedDocument ==
                  if old(store.selectedDocument).Some? && old(store.selectedDocument).value.id == docId
                  then None else old(store.selectedDocument)
      ensures !confirmed ==> store.selectedDocument == old(store.selectedDocument)
      ensures store.user == old(store.user) && store.searchFilters == old(store.searchFilters)
      ensures store.authState == old(store.authState)
    {
      if confirmed {
        store.DeleteDocument(docId);
      }
    }
  }
}
