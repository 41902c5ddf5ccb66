/** The application context: the in-memory document store, the session (user,
    authentication state, search filters, selected document) and the queries
    every view derives from the store. */
module Store {
  import opened Types
  import opened Text
  import opened Seqs

  const AdminUsername := "admin"
  const AdminPassword := "admin123"
  const LoginFailure := "Invalid credentials. Try admin / admin123"

  /** How many records the dashboard's "recent" and "popular" panels show. */
  const PanelSize := 5

  // ---------------------------------------------------------------------
  // Creating and changing records

  /** What `addDocument` is given: a document without its system fields. */
  datatype NewDocument = NewDocument(
    title: string,
    content: string,
    summary: string,
    tags: seq<string>,
    author: string,
    authorId: string,
    visibility: Visibility,
    fileType: Option<FileType>,
    fileName: Option<string>,
    fileSize: Option<nat>,
    department: string,
    comments: seq<Comment>)

  /** The record `addDocument` stores: the caller's fields, a fresh id, both
      timestamps at `now`, no engagement and no comments. */
  function Materialize(data: NewDocument, id: string, now: int): (d: Document)
    ensures d.id == id && d.createdAt == now && d.updatedAt == now
    ensures d.rating == 0.0 && d.totalRatings == 0 && d.views == 0 && d.comments == []
    ensures d.title == data.title && d.content == data.content && d.summary == data.summary
    ensures d.tags == data.tags && d.author == data.author && d.authorId == data.authorId
    ensures d.visibility == data.visibility && d.department == data.department
    ensures d.fileType == data.fileType && d.fileName == data.fileName && d.fileSize == data.fileSize
  {
    Document(id, data.title, data.content, data.summary, data.tags, data.author, data.authorId,
             now, now, data.visibility, 0.0, 0, 0, data.fileType, data.fileName, data.fileSize,
             data.department, [])
  }

  /** `Partial<Document>`: the fields an update overwrites. */
  datatype DocumentPatch = DocumentPatch(
    id: Option<string>,
    title: Option<string>,
    content: Option<string>,
    summary: Option<string>,
    tags: Option<seq<string>>,
    author: Option<string>,
    authorId: Option<string>,
    createdAt: Option<int>,
    updatedAt: Option<int>,
    visibility: Option<Visibility>,
    rating: Option<real>,
    totalRatings: Option<nat>,
    views: Option<nat>,
    fileType: Option<FileType>,
    fileName: Option<string>,
    fileSize: Option<nat>,
    department: Option<string>,
    comments: Option<seq<Comment>>)

  const NoChanges := DocumentPatch(None, None, None, None, None, None, None, None, None,
                                   None, None, None, None, None, None, None, None, None)

  /** `{ ...doc, ...updates, updatedAt: now }`: every supplied field wins,
      including `id`, `authorId` and `createdAt`; `updatedAt` is always `now`. */
  function Merge(d: Document, u: DocumentPatch, now: int): (r: Document)
    ensures r.updatedAt == now
    ensures u.id.None? ==> r.id == d.id
    ensures u.authorId.None? ==> r.authorId == d.authorId
    ensures u.createdAt.None? ==> r.createdAt == d.createdAt
  {
    Document(
      u.id.GetOr(d.id), u.title.GetOr(d.title), u.content.GetOr(d.content),
      u.summary.GetOr(d.summary), u.tags.GetOr(d.tags), u.author.GetOr(d.author),
      u.authorId.GetOr(d.authorId), u.createdAt.GetOr(d.createdAt), now,
      u.visibility.GetOr(d.visibility), u.rating.GetOr(d.rating),
      u.totalRatings.GetOr(d.totalRatings), u.views.GetOr(d.views),
      if u.fileType.Some? then u.fileType else d.fileType,
      if u.fileName.Some? then u.fileName else d.fileName,
      if u.fileSize.Some? then u.fileSize else d.fileSize,
      u.department.GetOr(d.department), u.comments.GetOr(d.comments))
  }

  /** An empty update only refreshes the timestamp. */
  lemma MergeNoChanges(d: Document, now: int)
    ensures Merge(d, NoChanges, now) == d.(updatedAt := now)
  {
  }

  /** Applying the same update twice is the same as applying it once. */
  lemma MergeIdempotent(d: Document, u: DocumentPatch, now: int)
    ensures Merge(Merge(d, u, now), u, now) == Merge(d, u, now)
  {
  }

  /** An update can move a record to another owner and give it another id:
      nothing in `updateDocument` protects the identity fields. */
  lemma MergeRewritesIdentity(d: Document, now: int)
    ensures Merge(d, NoChanges.(id := Some("x"), authorId := Some("y"), createdAt := Some(0)), now)
            == d.(id := "x", authorId := "y", createdAt := 0, updatedAt := now)
  {
  }

  /** `prev.map(doc => doc.id === id ? f(doc) : doc)`. */
  function MapMatching(docs: seq<Document>, id: string, f: Document -> Document): (r: seq<Document>)
    ensures |r| == |docs|
    ensures forall i :: 0 <= i < |docs| ==> r[i] == if docs[i].id == id then f(docs[i]) else docs[i]
  {
    if |docs| == 0 then []
    else [if docs[0].id == id then f(docs[0]) else docs[0]] + MapMatching(docs[1..], id, f)
  }

  /** The document list after `updateDocument(id, u)` at time `now`. */
  function UpdateAll(docs: seq<Document>, id: string, u: DocumentPatch, now: int): seq<Document>
  {
    MapMatching(docs, id, d => Merge(d, u, now))
  }

  /** Length and order are kept; exactly the records with that id change,
      each to its merge with the update; an unknown id changes nothing. */
  lemma UpdateAllEffect(docs: seq<Document>, id: string, u: DocumentPatch, now: int)
    ensures |UpdateAll(docs, id, u, now)| == |docs|
    ensures forall i :: 0 <= i < |docs| && docs[i].id == id ==> UpdateAll(docs, id, u, now)[i] == Merge(docs[i], u, now)
    ensures forall i :: 0 <= i < |docs| && docs[i].id != id ==> UpdateAll(docs, id, u, now)[i] == docs[i]
    ensures (forall i :: 0 <= i < |docs| ==> docs[i].id != id) ==> UpdateAll(docs, id, u, now) == docs
  {
  }

  /** One rating submission: a running mean over one more sample. No range
      check is made on `r`. */
  function RateRecord(d: Document, r: real): (e: Document)
    ensures e.totalRatings == d.totalRatings + 1
    ensures e.rating * (e.totalRatings as real) == d.rating * (d.totalRatings as real) + r
    ensures e == d.(rating := e.rating, totalRatings := e.totalRatings)
  {
    var n := d.totalRatings + 1;
    d.(rating := (d.rating * (d.totalRatings as real) + r) / (n as real), totalRatings := n)
  }

  function RateAll(docs: seq<Document>, id: string, r: real): seq<Document>
  {
    MapMatching(docs, id, d => RateRecord(d, r))
  }

  /** One view: the counter goes up by one. */
  function ViewRecord(d: Document): Document
  {
    d.(views := d.views + 1)
  }

  function ViewAll(docs: seq<Document>, id: string): seq<Document>
  {
    MapMatching(docs, id, ViewRecord)
  }

  /** `prev.filter(doc => doc.id !== id)`. */
  function RemoveId(docs: seq<Document>, id: string): (r: seq<Document>)
    ensures Subsequence(r, docs)
    ensures forall d :: d in r <==> d in docs && d.id != id
    ensures (forall i :: 0 <= i < |docs| ==> docs[i].id != id) ==> r == docs
  {
    Filter(docs, (d: Document) => d.id != id)
  }

  /** The first record with the given id, if any. */
  function Find(docs: seq<Document>, id: string): (r: Option<Document>)
    ensures r.Some? ==> r.value in docs && r.value.id == id
    ensures r.None? <==> forall d :: d in docs ==> d.id != id
  {
    if |docs| == 0 then None
    else if docs[0].id == id then Some(docs[0])
    else Find(docs[1..], id)
  }

  /** After a delete, a lookup of the deleted id finds nothing. */
  lemma DeleteThenFind(docs: seq<Document>, id: string)
    ensures Find(RemoveId(docs, id), id) == None
  {
  }

  // ---------------------------------------------------------------------
  // Repeated views and ratings

  function ViewTimes(docs: seq<Document>, id: string, k: nat): seq<Document>
    decreases k
  {
    if k == 0 then docs else ViewTimes(ViewAll(docs, id), id, k - 1)
  }

  /** `k` calls of `viewDocument(id)` add exactly `k` to the views of each
      matching record and change nothing else. */
  lemma {:induction false} ViewTimesAdds(docs: seq<Document>, id: string, k: nat)
    decreases k
    ensures |ViewTimes(docs, id, k)| == |docs|
    ensures forall i :: 0 <= i < |docs| ==>
      ViewTimes(docs, id, k)[i] == if docs[i].id == id then docs[i].(views := docs[i].views + k) else docs[i]
  {
    if k > 0 {
      var once := ViewAll(docs, id);
      ViewTimesAdds(once, id, k - 1);
    }
  }

  function SumOf(rs: seq<real>): real
  {
    if |rs| == 0 then 0.0 else rs[0] + SumOf(rs[1..])
  }

  function Mean(rs: seq<real>): real
    requires |rs| > 0
  {
    SumOf(rs) / (|rs| as real)
  }

  /** The record after the ratings `rs` are submitted in order. */
  function RateRepeatedly(d: Document, rs: seq<real>): Document
    decreases |rs|
  {
    if |rs| == 0 then d else RateRepeatedly(RateRecord(d, rs[0]), rs[1..])
  }

  /** The running mean is exact: after the ratings `rs`, the count has grown by
      `|rs|` and rating times count has grown by the sum of `rs`. */
  lemma {:induction false} RateRepeatedlyTotals(d: Document, rs: seq<real>)
    decreases |rs|
    ensures RateRepeatedly(d, rs).totalRatings == d.totalRatings + |rs|
    ensures RateRepeatedly(d, rs).rating * (RateRepeatedly(d, rs).totalRatings as real)
         == d.rating * (d.totalRatings as real) + SumOf(rs)
    ensures RateRepeatedly(d, rs)
         == d.(rating := RateRepeatedly(d, rs).rating, totalRatings := RateRepeatedly(d, rs).totalRatings)
  {
    if |rs| > 0 {
      RateRepeatedlyTotals(RateRecord(d, rs[0]), rs[1..]);
    }
  }

  /** From no ratings, the ratings `r1..rn` leave their arithmetic mean with
      count `n`. */
  lemma RatingIsMean(d: Document, rs: seq<real>)
    requires d.totalRatings == 0 && |rs| > 0
    ensures RateRepeatedly(d, rs).totalRatings == |rs|
    ensures RateRepeatedly(d, rs).rating == Mean(rs)
  {
    RateRepeatedlyTotals(d, rs);
    var e := RateRepeatedly(d, rs);
    assert e.rating * (|rs| as real) == SumOf(rs);
  }

  /** Rating a fresh document 5 and then 1 leaves 3.0 from 2 ratings. */
  lemma RateFiveThenOne(d: Document)
    requires d.rating == 0.0 && d.totalRatings == 0
    ensures RateRecord(RateRecord(d, 5.0), 1.0).rating == 3.0
    ensures RateRecord(RateRecord(d, 5.0), 1.0).totalRatings == 2
  {
    assert RateRecord(d, 5.0).rating == 5.0;
  }

  /** A rating outside 1..5 is taken as it is: one rating of 7 on a fresh
      document gives it an average of 7. */
  lemma RatingNotRangeChecked(d: Document)
    requires d.totalRatings == 0
    ensures RateRecord(d, 7.0).rating == 7.0
  {
  }

  function RateSequence(docs: seq<Document>, id: string, rs: seq<real>): seq<Document>
    decreases |rs|
  {
    if |rs| == 0 then docs else RateSequence(RateAll(docs, id, rs[0]), id, rs[1..])
  }

  /** Submitting `rs` to `rateDocument(id, _)` one by one rates every matching
      record with all of `rs` and leaves the others as they were. */
  lemma {:induction false} RateSequenceEffect(docs: seq<Document>, id: string, rs: seq<real>)
    decreases |rs|
    ensures |RateSequence(docs, id, rs)| == |docs|
    ensures forall i :: 0 <= i < |docs| ==>
      RateSequence(docs, id, rs)[i] == if docs[i].id == id then RateRepeatedly(docs[i], rs) else docs[i]
  {
    if |rs| > 0 {
      RateSequenceEffect(RateAll(docs, id, rs[0]), id, rs[1..]);
    }
  }

  // ---------------------------------------------------------------------
  // Store invariants

  ghost predicate UniqueIds(docs: seq<Document>)
  {
    forall i, j :: 0 <= i < j < |docs| ==> docs[i].id != docs[j].id
  }

  ghost predicate RatingsInRange(docs: seq<Document>)
  {
    forall i :: 0 <= i < |docs| ==> 0.0 <= docs[i].rating <= 5.0
  }

  /** Adding a record under an id not yet in use keeps ids unique and ratings
      within 0..5. */
  lemma AddKeepsInvariants(docs: seq<Document>, data: NewDocument, id: string, now: int)
    requires UniqueIds(docs) && RatingsInRange(docs)
    requires forall i :: 0 <= i < |docs| ==> docs[i].id != id
    ensures UniqueIds([Materialize(data, id, now)] + docs)
    ensures RatingsInRange([Materialize(data, id, now)] + docs)
  {
    var r := [Materialize(data, id, now)] + docs;
    forall i, j | 0 <= i < j < |r| ensures r[i].id != r[j].id {
      assert r[j] == docs[j - 1];
      if i > 0 { assert r[i] == docs[i - 1]; }
    }
  }

  /** A product with a positive factor has the other factor's sign. */
  lemma ProductSign(a: real, b: real)
    requires 0.0 < b
    ensures 0.0 <= a * b <==> 0.0 <= a
  {
  }

  /** A product of two non-negative reals is non-negative. */
  lemma ProductNonNegative(a: real, b: real)
    requires 0.0 <= a && 0.0 <= b
    ensures 0.0 <= a * b
  {
  }

  lemma DivideBounds(x: real, y: real, b: real)
    requires y > 0.0 && 0.0 <= x <= b * y
    ensures 0.0 <= x / y <= b
  {
    var q := x / y;
    assert q * y == x;
    assert (b - q) * y == b * y - x;
    ProductSign(q, y);
    ProductSign(b - q, y);
  }

  lemma RunningMeanInRange(mean: real, n: nat, r: real)
    requires 0.0 <= mean <= 5.0 && 0.0 <= r <= 5.0
    ensures 0.0 <= (mean * (n as real) + r) / ((n + 1) as real) <= 5.0
  {
    var t := n as real;
    ProductNonNegative(mean, t);
    ProductNonNegative(5.0 - mean, t);
    assert (5.0 - mean) * t == 5.0 * t - mean * t;
    var x, y := mean * t + r, (n + 1) as real;
    assert y == t + 1.0;
    assert x <= 5.0 * y;
    DivideBounds(x, y, 5.0);
  }

  /** The running mean of values in 0..5 stays in 0..5. */
  lemma RateRecordInRange(d: Document, r: real)
    requires 0.0 <= d.rating <= 5.0 && 0.0 <= r <= 5.0
    ensures 0.0 <= RateRecord(d, r).rating <= 5.0
  {
    RunningMeanInRange(d.rating, d.totalRatings, r);
    assert RateRecord(d, r).rating ==
      (d.rating * (d.totalRatings as real) + r) / ((d.totalRatings + 1) as real);
  }

  /** Ratings within 0..5 keep every record's average within 0..5; views and
      ratings never change an id. */
  lemma RateKeepsInvariants(docs: seq<Document>, id: string, r: real)
    requires UniqueIds(docs) && RatingsInRange(docs)
    requires 0.0 <= r <= 5.0
    ensures UniqueIds(RateAll(docs, id, r)) && RatingsInRange(RateAll(docs, id, r))
    ensures UniqueIds(ViewAll(docs, id)) && RatingsInRange(ViewAll(docs, id))
  {
    var rated := RateAll(docs, id, r);
    forall i | 0 <= i < |docs| ensures 0.0 <= rated[i].rating <= 5.0 {
      if docs[i].id == id { RateRecordInRange(docs[i], r); }
    }
  }

  // ---------------------------------------------------------------------
  // Queries

  /** The case-insensitive search of `getFilteredDocuments` and of the
      dashboard: the query occurs in the title, content, summary, some tag or
      the author. */
  predicate MatchesQuery(d: Document, query: string)
  {
    var q := Lower(query);
    || Includes(Lower(d.title), q)
    || Includes(Lower(d.content), q)
    || Includes(Lower(d.summary), q)
    || (exists t :: t in d.tags && Includes(Lower(t), q))
    || Includes(Lower(d.author), q)
  }

  /** The record passes the query and every facet that is set. */
  predicate MatchesFilters(d: Document, f: SearchFilters)
  {
    && (f.query == "" || MatchesQuery(d, f.query))
    && (f.department == "" || d.department == f.department)
    && (f.visibility == "" || VisibilityName(d.visibility) == f.visibility)
    && (f.fileType == "" || (d.fileType.Some? && FileTypeName(d.fileType.value) == f.fileType))
  }

  /** `getFilteredDocuments`: an order-preserving selection; with no query and
      no facet it is the whole store. */
  function FilteredDocuments(docs: seq<Document>, f: SearchFilters): (r: seq<Document>)
    ensures Subsequence(r, docs)
    ensures forall d :: d in r <==> d in docs && MatchesFilters(d, f)
    ensures f.query == "" && f.department == "" && f.visibility == "" && f.fileType == "" ==> r == docs
  {
    Filter(docs, (d: Document) => MatchesFilters(d, f))
  }

  /** `getUserDocuments`: exactly the records the user owns, in store order. */
  function UserDocuments(docs: seq<Document>, userId: string): (r: seq<Document>)
    ensures Subsequence(r, docs)
    ensures forall d :: d in r <==> d in docs && d.authorId == userId
  {
    Filter(docs, AuthoredBy(userId))
  }

  /** `doc.authorId === userId`, as a test to filter by. */
  function AuthoredBy(userId: string): Document -> bool
  {
    (d: Document) => d.authorId == userId
  }

  /** `b.createdAt - a.createdAt` orders `a` no later than `b`. */
  predicate NewerOrSame(a: Document, b: Document)
  {
    a.createdAt >= b.createdAt
  }

  /** The popularity score `rating * totalRatings + views`. */
  function Popularity(d: Document): real
  {
    d.rating * (d.totalRatings as real) + (d.views as real)
  }

  predicate MoreOrAsPopular(a: Document, b: Document)
  {
    Popularity(a) >= Popularity(b)
  }

  lemma NewerOrSameIsPreorder()
    ensures TotalPreorder(NewerOrSame)
  {
  }

  lemma MoreOrAsPopularIsPreorder()
    ensures TotalPreorder(MoreOrAsPopular)
  {
  }

  /** `getRecentDocuments`: the five newest records (a sorted copy; the store
      keeps its order). */
  function RecentDocuments(docs: seq<Document>): seq<Document>
  {
    TopK(docs, NewerOrSame, PanelSize)
  }

  /** `getPopularDocuments`: the five records with the highest score. */
  function PopularDocuments(docs: seq<Document>): seq<Document>
  {
    TopK(docs, MoreOrAsPopular, PanelSize)
  }

  lemma RecentDocumentsAreNewest(docs: seq<Document>)
    ensures |RecentDocuments(docs)| == if |docs| < PanelSize then |docs| else PanelSize
    ensures multiset(RecentDocuments(docs)) <= multiset(docs)
    ensures SortedBy(RecentDocuments(docs), NewerOrSame)
    ensures forall x, y ::
              (x in RecentDocuments(docs) && y in docs && multiset(RecentDocuments(docs))[y] < multiset(docs)[y])
              ==> NewerOrSame(x, y)
  {
    NewerOrSameIsPreorder();
    TopKIsTop(docs, NewerOrSame, PanelSize);
  }

  lemma PopularDocumentsAreMostPopular(docs: seq<Document>)
    ensures |PopularDocuments(docs)| == if |docs| < PanelSize then |docs| else PanelSize
    ensures multiset(PopularDocuments(docs)) <= multiset(docs)
    ensures SortedBy(PopularDocuments(docs), MoreOrAsPopular)
    ensures forall x, y ::
              (x in PopularDocuments(docs) && y in docs && multiset(PopularDocuments(docs))[y] < multiset(docs)[y])
              ==> MoreOrAsPopular(x, y)
  {
    MoreOrAsPopularIsPreorder();
    TopKIsTop(docs, MoreOrAsPopular, PanelSize);
  }

  // ---------------------------------------------------------------------
  // Aggregates the views display

  function Views(d: Document): nat
  {
    d.views
  }

  function Rating(d: Document): real
  {
    d.rating
  }

  /** `reduce((sum, doc) => sum + doc.views, 0)`. */
  function TotalViews(docs: seq<Document>): nat
  {
    SumNat(docs, Views)
  }

  /** Total views are additive: a record adds its own views. */
  lemma TotalViewsAdd(d: Document, docs: seq<Document>)
    ensures TotalViews([d] + docs) == d.views + TotalViews(docs)
  {
    assert ([d] + docs)[1..] == docs;
  }

  /** With ids unique, a view of a stored id adds exactly one to the total
      and a view of an unknown id adds nothing. */
  lemma {:induction false} ViewAddsOneToTotal(docs: seq<Document>, id: string)
    requires UniqueIds(docs)
    ensures TotalViews(ViewAll(docs, id)) == TotalViews(docs) + (if Find(docs, id).Some? then 1 else 0)
  {
    if |docs| > 0 {
      var tail := docs[1..];
      assert UniqueIds(tail);
      ViewAddsOneToTotal(tail, id);
      assert ViewAll(docs, id)[1..] == ViewAll(tail, id);
      if docs[0].id == id {
        assert Find(tail, id).None? by {
          forall d | d in tail ensures d.id != id {
            var j :| 0 <= j < |tail| && tail[j] == d;
            assert docs[j + 1] == d;
          }
        }
      }
    }
  }

  // ---------------------------------------------------------------------
  // Session

  predicate ValidCredentials(username: string, password: string)
  {
    username == AdminUsername && password == AdminPassword
  }

  /** `Partial<SearchFilters>`. */
  datatype FiltersPatch = FiltersPatch(
    query: Option<string>,
    tags: Option<seq<string>>,
    dateRange: Option<DateRange>,
    department: Option<string>,
    visibility: Option<string>,
    fileType: Option<string>)

  /** `{ ...prev, ...filters }`: the supplied fields win, the rest stay. */
  function MergeFilters(f: SearchFilters, p: FiltersPatch): (r: SearchFilters)
    ensures p.query.None? ==> r.query == f.query
    ensures p.query.Some? ==> r.query == p.query.value
    ensures p.tags.None? ==> r.tags == f.tags
    ensures p.tags.Some? ==> r.tags == p.tags.value
    ensures p.dateRange.None? ==> r.dateRange == f.dateRange
    ensures p.dateRange.Some? ==> r.dateRange == p.dateRange.value
    ensures p.department.None? ==> r.department == f.department
    ensures p.department.Some? ==> r.department == p.department.value
    ensures p.visibility.None? ==> r.visibility == f.visibility
    ensures p.visibility.Some? ==> r.visibility == p.visibility.value
    ensures p.fileType.None? ==> r.fileType == f.fileType
    ensures p.fileType.Some? ==> r.fileType == p.fileType.value
  {
    SearchFilters(p.query.GetOr(f.query), p.tags.GetOr(f.tags), p.dateRange.GetOr(f.dateRange),
                  p.department.GetOr(f.department), p.visibility.GetOr(f.visibility),
                  p.fileType.GetOr(f.fileType))
  }

  /** Setting the same filters twice is the same as setting them once. */
  lemma MergeFiltersIdempotent(f: SearchFilters, p: FiltersPatch)
    ensures MergeFilters(MergeFilters(f, p), p) == MergeFilters(f, p)
  {
  }

  /** The provider's state. Each method is one of the context's operations;
      the current time and fresh ids are supplied by the caller. */
  class AppStore {
    var user: User
    var authState: AuthState
    var documents: seq<Document>
    const activities: seq<Activity>
    var searchFilters: SearchFilters
    var selectedDocument: Option<Document>

    constructor (seedUser: User, seedDocuments: seq<Document>, seedActivities: seq<Activity>)
      ensures user == seedUser && documents == seedDocuments && activities == seedActivities
      ensures authState == AuthState(false, None)
      ensures searchFilters == DefaultFilters && selectedDocument == None
    {
      user := seedUser;
      authState := AuthState(false, None);
      documents := seedDocuments;
      activities := seedActivities;
      searchFilters := DefaultFilters;
      selectedDocument := None;
    }

    /** `login`, once its delay has passed: only admin/admin123 signs in;
      any other pair records the error and leaves the user as it was. */
    method Login(username: string, password: string)
      modifies this
      ensures ValidCredentials(username, password) ==>
                user == old(user).(isAuthenticated := true) && authState == AuthState(false, None)
      ensures !ValidCredentials(username, password) ==>
                user == old(user) && authState == AuthState(false, Some(LoginFailure))
      ensures documents == old(documents) && searchFilters == old(searchFilters)
      ensures selectedDocument == old(selectedDocument)
    {
      if ValidCredentials(username, password) {
        user := user.(isAuthenticated := true);
        authState := AuthState(false, None);
      } else {
        authState := AuthState(false, Some(LoginFailure));
      }
    }

    /** `logout`: a full session reset; the documents are kept. */
    method Logout()
      modifies this
      ensures user == old(user).(isAuthenticated := false)
      ensures selectedDocument == None && searchFilters == DefaultFilters
      ensures documents == old(documents) && authState == old(authState)
    {
      user := user.(isAuthenticated := false);
      selectedDocument := None;
      searchFilters := DefaultFilters;
    }

    method AddDocument(data: NewDocument, id: string, now: int)
      modifies this
      ensures documents == [Materialize(data, id, now)] + old(documents)
      ensures user == old(user) && authState == old(authState)
      ensures searchFilters == old(searchFilters) && selectedDocument == old(selectedDocument)
    {
      documents := [Materialize(data, id, now)] + documents;
    }

    /** The selected document is a snapshot and is not refreshed. */
    method UpdateDocument(id: string, updates: DocumentPatch, now: int)
      modifies this
      ensures documents == UpdateAll(old(documents), id, updates, now)
      ensures user == old(user) && authState == old(authState)
      ensures searchFilters == old(searchFilters) && selectedDocument == old(selectedDocument)
    {
      documents := UpdateAll(documents, id, updates, now);
    }

    /** Removes every record with the id; the selection is cleared exactly
        when it is a record with that id. */
    method DeleteDocument(id: string)
      modifies this
      ensures documents == RemoveId(old(documents), id)
      ensures selectedDocument ==
                if old(selectedDocument).Some? && old(selectedDocument).value.id == id
                then None else old(selectedDocument)
      ensures user == old(user) && authState == old(authState) && searchFilters == old(searchFilters)
    {
      documents := RemoveId(documents, id);
      if selectedDocument.Some? && selectedDocument.value.id == id {
        selectedDocument := None;
      }
    }

    method SetSearchFilters(filters: FiltersPatch)
      modifies this
      ensures searchFilters == MergeFilters(old(searchFilters), filters)
      ensures documents == old(documents) && selectedDocument == old(selectedDocument)
      ensures user == old(user) && authState == old(authState)
    {
      searchFilters := MergeFilters(searchFilters, filters);
    }

    method SetSelectedDocument(d: Option<Document>)
      modifies this
      ensures selectedDocument == d
      ensures documents == old(documents) && searchFilters == old(searchFilters)
      ensures user == old(user) && authState == old(authState)
    {
      selectedDocument := d;
    }

    method RateDocument(docId: string, rating: real)
      modifies this
      ensures documents == RateAll(old(documents), docId, rating)
      ensures selectedDocument == old(selectedDocument) && searchFilters == old(searchFilters)
      ensures user == old(user) && authState == old(authState)
    {
      documents := RateAll(documents, docId, rating);
    }

    method ViewDocument(docId: string)
      modifies this
      ensures documents == ViewAll(old(documents), docId)
      ensures selectedDocument == old(selectedDocument) && searchFilters == old(searchFilters)
      ensures user == old(user) && authState == old(authState)
    {
      documents := ViewAll(documents, docId);
    }

    function GetFilteredDocuments(): seq<Document>
      reads this
    {
      FilteredDocuments(documents, searchFilters)
    }

    function GetUserDocuments(): seq<Document>
      reads this
    {
      UserDocuments(documents, user.id)
    }

    function GetRecentDocuments(): seq<Document>
      reads this
    {
      RecentDocuments(documents)
    }

    function GetPopularDocuments(): seq<Document>
      reads this
    {
      PopularDocuments(documents)
    }
  }
}
