/** The dashboard: the searchable, quick-filtered and paged list of all
    documents, and the greeting. */
module Dashboard {
  import opened Types
  import opened Text
  import opened Seqs
  import opened Store
  import opened Paging

  /** The quick-filter tabs ('all', 'recent', 'popular', 'my'). */
  datatype QuickFilter = AllDocs | RecentFirst | PopularFirst | Mine

  predicate IsBlank(query: string)
  {
    |Trim(query)| == 0
  }

  /** The search step: skipped for a blank query; otherwise the records
      matching the query as typed (untrimmed), in store order. */
  function QueryHits(docs: seq<Document>, query: string): (r: seq<Document>)
    ensures Subsequence(r, docs)
    ensures IsBlank(query) ==> r == docs
    ensures !IsBlank(query) ==> forall d :: d in r <==> d in docs && MatchesQuery(d, query)
  {
    if IsBlank(query) then
      SubsequenceOfItself(docs);
      docs
    else
      Filter(docs, (d: Document) => MatchesQuery(d, query))
  }

  /** The list the dashboard shows before paging. */
  function DashboardList(docs: seq<Document>, query: string, qf: QuickFilter, userId: string): seq<Document>
  {
    var hits := QueryHits(docs, query);
    match qf
    case AllDocs => hits
    case RecentFirst => SortBy(hits, NewerOrSame)
    case PopularFirst => SortBy(hits, MoreOrAsPopular)
    case Mine => UserDocuments(hits, userId)
  }

  /** Every tab shows the search hits: all of them in store order, all of them
      newest first, all of them most popular first, or the user's own. */
  lemma DashboardListContents(docs: seq<Document>, query: string, qf: QuickFilter, userId: string)
    ensures qf == AllDocs ==> DashboardList(docs, query, qf, userId) == QueryHits(docs, query)
    ensures qf.RecentFirst? || qf.PopularFirst? ==>
              multiset(DashboardList(docs, query, qf, userId)) == multiset(QueryHits(docs, query))
    ensures qf == RecentFirst ==> SortedBy(DashboardList(docs, query, qf, userId), NewerOrSame)
    ensures qf == PopularFirst ==> SortedBy(DashboardList(docs, query, qf, userId), MoreOrAsPopular)
    ensures qf == Mine ==> forall d :: d in DashboardList(docs, query, qf, userId) <==>
              d in QueryHits(docs, query) && d.authorId == userId
  {
    NewerOrSameIsPreorder();
    MoreOrAsPopularIsPreorder();
    SortBySorted(QueryHits(docs, query), NewerOrSame);
    SortBySorted(QueryHits(docs, query), MoreOrAsPopular);
  }

  /** The store's list after the dashboard computed its list as written: with
      a blank query the "recent" and "popular" tabs sort the store's own array,
      because the search step then hands back that array itself. */
  function StoreAfterRenderAsWritten(docs: seq<Document>, query: string, qf: QuickFilter): seq<Document>
  {
    if IsBlank(query) && qf == RecentFirst then SortBy(docs, NewerOrSame)
    else if IsBlank(query) && qf == PopularFirst then SortBy(docs, MoreOrAsPopular)
    else docs
  }

  /** The reordering keeps every record; only the order changes. */
  lemma RenderAsWrittenKeepsRecords(docs: seq<Document>, query: string, qf: QuickFilter)
    ensures multiset(StoreAfterRenderAsWritten(docs, query, qf)) == multiset(docs)
  {
  }

  function Sample(id: string, createdAt: int): Document
  {
    Document(id, "", "", "", [], "", "", createdAt, createdAt, Public, 0.0, 0, 0, None, None, None, "", [])
  }

  /** Two records stored oldest first: opening the "recent" tab with an empty
      search box puts the newer one first in the store itself. */
  lemma RenderAsWrittenReordersStore()
    ensures StoreAfterRenderAsWritten([Sample("a", 1), Sample("b", 2)], "", RecentFirst)
            == [Sample("b", 2), Sample("a", 1)]
  {
    var docs := [Sample("a", 1), Sample("b", 2)];
    assert IsBlank("");
    assert docs[1..] == [Sample("b", 2)];
    assert SortBy([Sample("b", 2)], NewerOrSame) == [Sample("b", 2)];
  }

  /** "Chào mừng trở lại, …": the last two space-separated words of the name. */
  function Greeting(name: string): string
  {
    var words := Split(name, ' ');
    Join(if |words| <= 2 then words else words[|words| - 2..], " ")
  }

  /** The greeting is the end of the name, and a name of one or two words is
      greeted in full; a longer name is greeted by its last two words, the
      text after its second-to-last space. */
  lemma GreetingIsEndOfName(name: string)
    ensures exists pre :: name == pre + Greeting(name)
    ensures multiset(name)[' '] <= 1 ==> Greeting(name) == name
    ensures multiset(name)[' '] >= 2 ==>
              && multiset(Greeting(name))[' '] == 1
              && exists pre :: name == pre + " " + Greeting(name)
  {
    GreetingOfShortName(name);
    GreetingIsSuffix(name);
    if multiset(name)[' '] >= 2 {
      GreetingOfLongNameIsTwoWords(name);
      GreetingOfLongNameFollowsSpace(name);
    }
  }

  /** A name with two spaces or more is greeted by the join of its last
      two pieces. */
  lemma GreetingOfLongName(name: string)
    requires multiset(name)[' '] >= 2
    ensures |Split(name, ' ')| >= 3
    ensures Greeting(name) == Join(Split(name, ' ')[|Split(name, ' ')| - 2..], " ")
  {
    SplitCount(name, ' ');
  }

  /** Two pieces without a space, joined by one, hold exactly one space. */
  lemma JoinedPairHasOneSpace(ps: seq<string>)
    requires |ps| == 2 && ' ' !in ps[0] && ' ' !in ps[1]
    ensures multiset(Join(ps, " "))[' '] == 1
  {
    assert ps[1..] == [ps[1]];
    assert Join(ps, " ") == ps[0] + " " + ps[1];
    assert multiset(ps[0] + " " + ps[1]) == multiset(ps[0]) + multiset(" ") + multiset(ps[1]);
  }

  /** The join of the last two of three or more pieces follows a separator. */
  lemma JoinLastTwo(ps: seq<string>, sep: string)
    requires |ps| >= 3
    ensures exists pre :: Join(ps, sep) == pre + sep + Join(ps[|ps| - 2..], sep)
  {
    var n := |ps|;
    JoinSuffix(ps, sep, n - 3);
    var pre :| Join(ps, sep) == pre + Join(ps[n - 3..], sep);
    var tail := ps[n - 3..];
    assert tail[1..] == ps[n - 2..];
    assert Join(tail, sep) == ps[n - 3] + sep + Join(ps[n - 2..], sep);
    assert Join(ps, sep) == (pre + ps[n - 3]) + sep + Join(ps[n - 2..], sep);
  }

  lemma GreetingOfLongNameIsTwoWords(name: string)
    requires multiset(name)[' '] >= 2
    ensures multiset(Greeting(name))[' '] == 1
  {
    GreetingOfLongName(name);
    var words := Split(name, ' ');
    var last := words[|words| - 2..];
    assert last[0] == words[|words| - 2] && last[1] == words[|words| - 1];
    JoinedPairHasOneSpace(last);
  }

  lemma GreetingOfLongNameFollowsSpace(name: string)
    requires multiset(name)[' '] >= 2
    ensures exists pre :: name == pre + " " + Greeting(name)
  {
    GreetingOfLongName(name);
    JoinSplit(name, ' ');
    assert [' '] == " ";
    JoinLastTwo(Split(name, ' '), " ");
  }

  lemma GreetingOfShortName(name: string)
    ensures multiset(name)[' '] <= 1 ==> Greeting(name) == name
  {
    JoinSplit(name, ' ');
    SplitCount(name, ' ');
    assert [' '] == " ";
  }

  lemma GreetingIsSuffix(name: string)
    ensures exists pre :: name == pre + Greeting(name)
  {
    var words := Split(name, ' ');
    JoinSplit(name, ' ');
    assert [' '] == " ";
    if |words| <= 2 {
      assert name == "" + Greeting(name);
    } else {
      JoinSuffix(words, " ", |words| - 2);
    }
  }

  /** The dashboard's own state: the tab, the page, and the search text the
      page was last reset for. */
  class DashboardView {
    var quickFilter: QuickFilter
    var currentPage: nat
    var seenQuery: string

    ghost predicate Valid()
      reads this
    {
      currentPage >= 1
    }

    constructor (query: string)
      ensures Valid()
      ensures quickFilter == AllDocs && currentPage == 1 && seenQuery == query
    {
      quickFilter := AllDocs;
      currentPage := 1;
      seenQuery := query;
    }

    /** A tab click; the page returns to 1 when the tab actually changes. */
    method SetQuickFilter(qf: QuickFilter)
      requires Valid()
      modifies this
      ensures Valid()
      ensures quickFilter == qf && seenQuery == old(seenQuery)
      ensures currentPage == if qf != old(quickFilter) then 1 else old(currentPage)
    {
      if qf != quickFilter {
        currentPage := 1;
      }
      quickFilter := qf;
    }

    /** The search text in the store changed: the page returns to 1. */
    method SyncQuery(query: string)
      requires Valid()
      modifies this
      ensures Valid()
      ensures seenQuery == query && quickFilter == old(quickFilter)
      ensures currentPage == if query != old(seenQuery) then 1 else old(currentPage)
    {
      if query != seenQuery {
        currentPage := 1;
      }
      seenQuery := query;
    }

    /** A numbered page button: they run from 1 to the page count. */
    method GoToPage(page: nat, totalPages: nat)
      requires 1 <= page <= totalPages
      modifies this
      ensures Valid()
      ensures currentPage == page && quickFilter == old(quickFilter) && seenQuery == old(seenQuery)
    {
      currentPage := page;
    }

    method PreviousPage()
      modifies this
      ensures Valid()
      ensures currentPage == PrevPage(old(currentPage))
      ensures quickFilter == old(quickFilter) && seenQuery == old(seenQuery)
    {
      currentPage := PrevPage(currentPage);
    }

    /** The "next" button exists only while there is more than one page. */
    method NextPageClick(totalPages: nat)
      requires Valid() && totalPages > 1
      modifies this
      ensures Valid()
      ensures currentPage == NextPage(old(currentPage), totalPages)
      ensures quickFilter == old(quickFilter) && seenQuery == old(seenQuery)
    {
      currentPage := NextPage(currentPage, totalPages);
    }

    /** The rows on the current page and the page count, computed on a copy:
        the store is left as it is. */
    method Visible(store: AppStore) returns (shown: seq<Document>, totalPages: nat)
      requires Valid()
      ensures shown == Page(DashboardList(store.documents, store.searchFilters.query, quickFilter, store.user.id), currentPage)
      ensures totalPages == TotalPages(|DashboardList(store.documents, store.searchFilters.query, quickFilter, store.user.id)|)
    {
      var list := DashboardList(store.documents, store.searchFilters.query, quickFilter, store.user.id);
      shown := Page(list, currentPage);
      totalPages := TotalPages(|list|);
    }

    /** The same computation as the component performs it, sorting the
        store's array in place when the search box is blank. */
    method VisibleAsWritten(store: AppStore) returns (shown: seq<Document>, totalPages: nat)
      requires Valid()
      modifies store
      ensures store.documents == StoreAfterRenderAsWritten(old(store.documents), store.searchFilters.query, quickFilter)
      ensures shown == Page(DashboardList(old(store.documents), store.searchFilters.query, quickFilter, store.user.id), currentPage)
      ensures totalPages == TotalPages(|DashboardList(old(store.documents), store.searchFilters.query, quickFilter, store.user.id)|)
      ensures store.user == old(store.user) && store.searchFilters == old(store.searchFilters)
      ensures store.authState == old(store.authState) && store.selectedDocument == old(store.selectedDocument)
    {
      shown, totalPages := Visible(store);
      store.documents := StoreAfterRenderAsWritten(store.documents, store.searchFilters.query, quickFilter);
    }
  }
}
