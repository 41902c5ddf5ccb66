/** The community page: the feed of the latest documents with their star
    bars, comment counts and comment boxes. */
module Community {
  import opened Types
  import opened Text
  import opened Seqs
  import opened Store
  import opened Display

  /** The feed's length. */
  const FeedSize := 5

  /** The feed: the first five records in store order. */
  function Feed(docs: seq<Document>): seq<Document>
  {
    Take(docs, FeedSize)
  }

  /** The feed is the head of the store's list, at most five long; a record
      just added (they are added at the front) leads it. */
  lemma FeedIsHead(docs: seq<Document>, d: Document)
    ensures |Feed(docs)| == if |docs| < FeedSize then |docs| else FeedSize
    ensures docs == Feed(docs) + docs[|Feed(docs)|..]
    ensures Feed([d] + docs)[0] == d
  {
    TakeIsPrefix(docs, FeedSize);
  }

  // ---------------------------------------------------------------------
  // Comments

  /** A sample comment and its replies. */
  datatype SampleComment = SampleComment(
    id: string,
    author: string,
    content: string,
    timestamp: string,
    likes: nat,
    replies: seq<SampleComment>)

  /** The sample comments shown under the records with ids "1" and "2". */
  const SampleComments: map<string, seq<SampleComment>> := map[
    "1" := [
      SampleComment("c1", "Trần Thị Lan",
        "Tài liệu rất hữu ích cho việc triển khai SAP. Cảm ơn anh Hùng đã chia sẻ!",
        "2024-12-15T09:30:00Z", 5,
        [SampleComment("r1", "Nguyễn Văn Hùng",
           "Cảm ơn chị Lan! Nếu có thắc mắc gì thêm thì inbox mình nhé.",
           "2024-12-15T10:15:00Z", 2, [])]),
      SampleComment("c2", "Lê Minh Tuấn",
        "Phase 2 có timeline chi tiết không anh? Team mình đang cần tham khảo.",
        "2024-12-15T11:20:00Z", 3, [])],
    "2" := [
      SampleComment("c3", "Phạm Thị Hoa",
        "Policy này rất cần thiết. Đề xuất nên có thêm phần training cho nhân viên mới.",
        "2024-12-14T16:45:00Z", 8, [])]
  ]

  /** The count beside the comment button: the number of top-level comments
      stored for the id, 0 for an id without any. */
  function CommentCount(comments: map<string, seq<SampleComment>>, docId: string): nat
  {
    if docId in comments then |comments[docId]| else 0
  }

  /** Replies are not counted: record "1" shows 2, record "2" shows 1, every
      other record 0. */
  lemma SampleCommentCounts(docId: string)
    ensures CommentCount(SampleComments, "1") == 2
    ensures CommentCount(SampleComments, "2") == 1
    ensures docId != "1" && docId != "2" ==> CommentCount(SampleComments, docId) == 0
  {
  }

  /** Whether the comments of `docId` are open; an id never toggled is closed. */
  predicate Shown(open: map<string, bool>, docId: string)
  {
    docId in open && open[docId]
  }

  /** `{ ...prev, [docId]: !prev[docId] }`. */
  function Toggle(open: map<string, bool>, docId: string): map<string, bool>
  {
    open[docId := !Shown(open, docId)]
  }

  /** A toggle flips the one entry and no other; two toggles show the same
      comments as none. */
  lemma ToggleFlipsOne(open: map<string, bool>, docId: string, other: string)
    ensures Shown(Toggle(open, docId), docId) == !Shown(open, docId)
    ensures other != docId ==> Shown(Toggle(open, docId), other) == Shown(open, other)
    ensures other != docId ==> (other in Toggle(open, docId) <==> other in open)
    ensures Shown(Toggle(Toggle(open, docId), docId), other) == Shown(open, other)
  {
  }

  /** The comment box after "send": cleared when it held more than
      whitespace, left as it was otherwise. */
  function AfterSend(draft: string): string
  {
    if |Trim(draft)| > 0 then "" else draft
  }

  /** After a send the box is blank; a blank box is left alone, so a second
      send changes nothing. */
  lemma AfterSendLeavesBlank(draft: string)
    ensures |Trim(AfterSend(draft))| == 0
    ensures AllSpace(draft) ==> AfterSend(draft) == draft
    ensures !AllSpace(draft) ==> AfterSend(draft) == ""
    ensures AfterSend(AfterSend(draft)) == AfterSend(draft)
  {
    TrimEmpty(draft);
    if |Trim(draft)| > 0 {
      assert AfterSend(draft) == "";
      TrimEmpty("");
    }
  }

  // ---------------------------------------------------------------------
  // Stars

  /** A star click submits a rating only on an interactive bar that names a
      record (a non-empty id). */
  predicate ClickRates(interactive: bool, docId: Option<string>)
  {
    interactive && docId.Some? && |docId.value| > 0
  }

  /** Both bars light `Math.floor(rating)` stars; the interactive bar is
      drawn with rating 0, so it never lights a star. */
  lemma InteractiveBarIsDark(rating: real)
    requires 0.0 <= rating <= 5.0
    ensures FilledAmong(StarLevel(0.0), StarCount) == 0
    ensures FilledAmong(StarLevel(rating), StarCount) == StarLevel(rating)
  {
    FilledIsClamped(StarLevel(0.0), StarCount);
    RatingShowsWholeStars(rating);
  }

  /** The page's own state. */
  class CommunityView {
    var newComment: string
    var showComments: map<string, bool>

    constructor ()
      ensures newComment == "" && showComments == map[]
    {
      newComment := "";
      showComments := map[];
    }

    method ToggleComments(docId: string)
      modifies this
      ensures showComments == Toggle(old(showComments), docId)
      ensures newComment == old(newComment)
    {
      showComments := Toggle(showComments, docId);
    }

    /** A keystroke in the comment box. */
    method SetNewComment(text: string)
      modifies this
      ensures newComment == text && showComments == old(showComments)
    {
      newComment := text;
    }

    /** "Send": the comment is not stored anywhere; the box is cleared when
        it held more than whitespace. */
    method HandleComment(docId: string)
      modifies this
      ensures newComment == AfterSend(old(newComment))
      ensures showComments == old(showComments)
    {
      if |Trim(newComment)| > 0 {
        newComment := "";
      }
    }

    /** A click on star `i` (from 0) submits `i + 1` for the record when the
        bar is interactive and names one; otherwise nothing happens. */
    method StarClick(store: AppStore, i: nat, interactive: bool, docId: Option<string>)
      requires i < StarCount
      modifies store
      ensures ClickRates(interactive, docId) ==>
                store.documents == RateAll(old(store.documents), docId.value, (i + 1) as real)
      ensures !ClickRates(interactive, docId) ==> store.documents == old(store.documents)
      ensures store.user == old(store.user) && store.selectedDocument == old(store.selectedDocument)
      ensures store.searchFilters == old(store.searchFilters) && store.authState == old(store.authState)
    {
      if ClickRates(interactive, docId) {
        store.RateDocument(docId.value, (i + 1) as real);
      }
    }
  }
}
