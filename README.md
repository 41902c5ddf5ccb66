# Social Knowledge Galaxy: a Dafny model of the document store and its views

Social Knowledge Galaxy is a single-page knowledge portal. A shared in-memory
store holds the company's documents, the signed-in user, the search filters
and the selected document. Several views read and change that store:

- the dashboard: search, quick filters and pages of five;
- "my documents": search, a visibility filter, four sort keys and pages;
- analytics: totals, a rating-weighted average, tallies and top-k rankings;
- the three-step upload form;
- the document viewer: rating, editing, deleting;
- the community feed;
- the shell that picks the screen.

This project models that core in Dafny and proves what each part promises.

| file | module | models |
|---|---|---|
| `types.dfy` | `Types` | the records: documents, users, filters, upload progress |
| `seqs.dfy` | `Seqs` | `filter`, `slice`, a stable sort and top-k, sums |
| `text.dfy` | `Text` | `trim`, ASCII `toLowerCase`, `includes`, `split`/`join`, comma-separated tag lists, `localeCompare` as code-point order |
| `store.dfy` | `Store` | the store: its operations as functions, and the class `AppStore` whose methods change it |
| `paging.dfy` | `Paging` | pages of five and the previous/next buttons |
| `display.dfy` | `Display` | the star bar and the "time ago" labels |
| `dashboard.dfy` | `Dashboard` | the dashboard list, its page state and the greeting |
| `document_list.dfy` | `DocumentList` | the user's own list, its sort keys, totals and labels |
| `analytics.dfy` | `Analytics` | totals, tallies (a loop over the keys) and rankings |
| `upload.dfy` | `Upload` | file checks, title from file name, tag suggestions, the step machine, the progress ticks, the published record |
| `document_viewer.dfy` | `DocumentViewer` | edit permission, the edit form's tag round trip, save, delete, star clicks |
| `app_shell.dfy` | `AppShell` | the screen choice and the two view changes |
| `community.dfy` | `Community` | the feed, comment toggles and drafts, star clicks, comment counts |

Modelling choices:

- Stateful components are classes whose fields are the component's state; handlers are methods.
- A handler that calls the store takes the `AppStore` object and states the store's new state.
- Values that come from outside are parameters:
  - the clock (`now`, milliseconds);
  - fresh ids;
  - the random picks of the generated summary and tags;
  - the answer to a confirmation dialog;
  - the file the browser hands over.
- Alerts are returned as strings.
- Ratings and averages are `real`; counts are `nat`.

## Model

| member | source | states |
|---|---|---|
| `Store.Materialize` | src/contexts/AppContext.tsx:1529-1539 | the stored record keeps every field the caller gave, takes the fresh id and `now` for both timestamps, and starts with no rating, no views and no comments |
| `Store.AppStore.AddDocument` | src/contexts/AppContext.tsx:1529-1541 | the new record is put in front of the old list, which follows unchanged; nothing else in the store changes |
| `Store.AddKeepsInvariants` | src/contexts/AppContext.tsx:1529-1541 | adding under an unused id keeps ids unique and every average within 0..5 |
| `Store.Merge` | src/contexts/AppContext.tsx:1545 | an updated record always gets `updatedAt = now`; id, owner and creation time stay unless the update supplies them |
| `Store.MergeNoChanges` | src/contexts/AppContext.tsx:1545 | an empty update only refreshes `updatedAt` |
| `Store.MergeIdempotent` | src/contexts/AppContext.tsx:1545 | applying the same update twice equals applying it once |
| `Store.MergeRewritesIdentity` | src/contexts/AppContext.tsx:1545 | an update can change the id, the owner and the creation time: nothing protects them |
| `Store.MapMatching` | src/contexts/AppContext.tsx:1544-1546 | the list keeps its length; position by position, exactly the records with the id are transformed |
| `Store.UpdateAllEffect` | src/contexts/AppContext.tsx:1543-1547 | `updateDocument` keeps length and order, merges the update into exactly the matching records, and is a no-op for an unknown id |
| `Store.AppStore.UpdateDocument` | src/contexts/AppContext.tsx:1543-1547 | the documents become the updated list; the selection snapshot and the rest of the store are untouched |
| `Store.RemoveId` | src/contexts/AppContext.tsx:1550 | the result is an order-preserving subsequence holding exactly the records with another id; unchanged when no record has the id |
| `Store.DeleteThenFind` | src/contexts/AppContext.tsx:1549-1554 | after a delete no record with that id remains |
| `Store.AppStore.DeleteDocument` | src/contexts/AppContext.tsx:1549-1554 | records with the id are removed; the selection is cleared exactly when it has that id |
| `Store.RateRecord` | src/contexts/AppContext.tsx:1560-1569 | the count grows by one and `rating * count` grows by the submitted value; no other field changes |
| `Store.RateRepeatedlyTotals` | src/contexts/AppContext.tsx:1563-1565 | after ratings `rs` the count grew by `|rs|` and `rating * count` by their sum |
| `Store.RatingIsMean` | src/contexts/AppContext.tsx:1563-1565 | from no ratings, ratings `r1..rn` leave their arithmetic mean with count `n` |
| `Store.RateFiveThenOne` | src/contexts/AppContext.tsx:1563-1565 | a fresh record rated 5 and then 1 shows 3.0 from 2 ratings |
| `Store.RatingNotRangeChecked` | src/contexts/AppContext.tsx:1560-1569 | a rating of 7 is accepted as it is |
| `Store.RateSequenceEffect` | src/contexts/AppContext.tsx:1560-1569 | ratings submitted one by one rate every matching record with all of them, and leave the others as they were |
| `Store.RunningMeanInRange` | src/contexts/AppContext.tsx:1564 | a mean of values in 0..5 updated with one more value in 0..5 stays in 0..5 |
| `Store.RateRecordInRange` | src/contexts/AppContext.tsx:1564 | the running mean of values in 0..5 stays in 0..5 |
| `Store.RateKeepsInvariants` | src/contexts/AppContext.tsx:1560-1575 | rating within 0..5 and viewing keep ids unique and every average within 0..5 |
| `Store.AppStore.RateDocument` | src/contexts/AppContext.tsx:1560-1569 | the documents become the list with the matching records rated; nothing else changes |
| `Store.ViewTimesAdds` | src/contexts/AppContext.tsx:1571-1575 | `k` views add exactly `k` to each matching record's counter and change nothing else |
| `Store.ViewAddsOneToTotal` | src/contexts/AppContext.tsx:1571-1575 | with unique ids, one view of a stored id adds exactly one to the total views, and a view of an unknown id adds none |
| `Store.AppStore.ViewDocument` | src/contexts/AppContext.tsx:1571-1575 | the documents become the list with the matching records viewed once more; nothing else changes |
| `Store.FilteredDocuments` | src/contexts/AppContext.tsx:1577-1592 | an order-preserving subsequence holding exactly the records that pass the query and every facet that is set; the whole list when nothing is set |
| `Store.UserDocuments` | src/contexts/AppContext.tsx:1594-1596 | an order-preserving subsequence holding exactly the user's own records |
| `Store.NewerOrSameIsPreorder` | src/contexts/AppContext.tsx:1600 | the recency comparison is total and transitive, so it can drive the sort |
| `Store.MoreOrAsPopularIsPreorder` | src/contexts/AppContext.tsx:1606 | the popularity comparison is total and transitive |
| `Store.RecentDocumentsAreNewest` | src/contexts/AppContext.tsx:1598-1602 | `min(5, n)` records drawn from the store, newest first, and no record left out is newer than one kept |
| `Store.PopularDocumentsAreMostPopular` | src/contexts/AppContext.tsx:1604-1608 | `min(5, n)` records drawn from the store, highest score first, and no record left out scores higher than one kept |
| `Store.TotalViewsAdd` | src/components/Views/DocumentList.tsx:115 | total views are additive over records |
| `Store.MergeFilters` | src/contexts/AppContext.tsx:1556-1558 | each filter field takes the supplied value, or keeps the old one when none is supplied |
| `Store.MergeFiltersIdempotent` | src/contexts/AppContext.tsx:1556-1558 | setting the same filters twice equals setting them once |
| `Store.AppStore.SetSearchFilters` | src/contexts/AppContext.tsx:1556-1558 | the filters become the merge; nothing else changes |
| `Store.AppStore.SetSelectedDocument` | src/contexts/AppContext.tsx:1493 | only the selection changes |
| `Store.AppStore.Login` | src/contexts/AppContext.tsx:1496-1514 | only admin/admin123 signs the user in and clears the error; any other pair records the failure message and leaves the user as it was |
| `Store.AppStore.Logout` | src/contexts/AppContext.tsx:1516-1527 | the user is signed out, the selection cleared and the filters reset; the documents stay |
| `Store.AppStore.constructor` | src/contexts/AppContext.tsx:1478-1493 | the seed user and documents, no error, default filters, no selection |
| `Seqs.Filter` | src/contexts/AppContext.tsx:1578 | `filter` keeps exactly the passing elements, in order; it returns the list itself when all pass |
| `Seqs.SortBy` | src/contexts/AppContext.tsx:1600 | the sorted list is a permutation of the input |
| `Seqs.SortBySorted` | src/contexts/AppContext.tsx:1600 | under a total preorder the sorted list is in order |
| `Seqs.TopKIsTop` | src/contexts/AppContext.tsx:1599-1601 | sort then `slice(0, k)`: `min(k, n)` elements drawn from the input, in order, and no element left out precedes a kept one |
| `Text.TrimEmpty` | src/components/Views/Dashboard.tsx:29 | a query is blank after `trim` exactly when all its characters are whitespace |
| `Text.Trim` | src/components/Views/Dashboard.tsx:29 | the trimmed string has no whitespace at either end |
| `Text.Split` | src/components/Views/Upload.tsx:124 | there is always at least one piece, and no piece contains the separator |
| `Text.LowerIdempotent` | src/components/Views/Dashboard.tsx:30-36 | lowering an already lowered string changes nothing |
| `Text.ParseTagsLeadingSpace` | src/components/Views/Upload.tsx:124 | a space before the tag field does not change the tags it stands for |
| `Text.TrimIdentity` | src/components/Views/Upload.tsx:124 | trimming changes nothing exactly when neither end is whitespace |
| `Text.JoinSplit` | src/components/Views/Dashboard.tsx:111 | `split(c)` then `join(c)` gives the string back |
| `Text.SplitCount` | src/components/Views/Dashboard.tsx:111 | `split(c)` gives one more piece than there are `c` characters |
| `Text.ParseTagsClean` | src/components/Views/Upload.tsx:124 | no parsed tag is empty, contains a comma or has whitespace at either end |
| `Text.ParseJoin` | src/components/Views/DocumentViewer.tsx:89 | parsing the `", "`-joined field of clean tags gives the same tags back |
| `Text.ParseTagsIdempotent` | src/components/Views/Upload.tsx:336 | parsing the joined result of a parse changes nothing |
| `Text.StrLeTotal` | src/components/Views/DocumentList.tsx:42 | the title comparison relates every pair of strings one way or the other |
| `Text.StrLeTransitive` | src/components/Views/DocumentList.tsx:42 | the title comparison is transitive |
| `Paging.TotalPages` | src/components/Views/Dashboard.tsx:53 | `ceil(n / 5)`: enough pages for `n` records, and not one more |
| `Paging.Page` | src/components/Views/Dashboard.tsx:54-55 | page `p` shows records `(p-1)*5` onwards, at most five; it is non-empty exactly for `p` up to the page count, and full before the last page |
| `Paging.PagesUpToPrefix` | src/components/Views/Dashboard.tsx:53-55 | the first `c` pages together are the first `5c` records, or all of them |
| `Paging.PagesCoverList` | src/components/Views/DocumentList.tsx:54-56 | all pages together give the list back exactly |
| `Paging.PagerShownExactly` | src/components/Views/DocumentList.tsx:384 | there is more than one page exactly when there are more than five records |
| `Paging.PrevPage` | src/components/Views/Dashboard.tsx:334 | "previous" never goes below 1 and otherwise steps back one |
| `Paging.NextPage` | src/components/Views/Dashboard.tsx:358 | "next" never passes the page count and otherwise steps forward one |
| `Paging.ButtonsStayInRange` | src/components/Views/DocumentList.tsx:391-416 | from a page in range both buttons keep the page in range |
| `Display.FilledIsClamped` | src/components/Views/Dashboard.tsx:90-101 | the bar lights its first `level` stars, clamped to 0 and to the bar's length |
| `Display.RatingShowsWholeStars` | src/components/Views/DocumentList.tsx:96-107 | an average in 0..5 lights exactly its whole part, from 0 to 5 stars |
| `Display.DaysAgo` | src/components/Views/Dashboard.tsx:83 | the floor of the difference in days |
| `Display.HoursAgo` | src/components/Views/Community.tsx:82 | the floor of the difference in hours |
| `Display.DayBucketBounds` | src/components/Views/Dashboard.tsx:79-88 | "Today" is the first 24 hours and "Yesterday" the next 24; anything else, a future time included, is a count of days |
| `Display.HoursThenDays` | src/components/Views/Community.tsx:82-88 | flooring to hours and then to days equals flooring to days |
| `Display.CommunityAgreesOnDays` | src/components/Views/Community.tsx:84-90 | past a day the feed's label counts the same days as the day labels and says "Yesterday" for the same times |
| `Display.CommunityHours` | src/components/Views/Community.tsx:84-85 | "Just now" is the first hour, "1 hour ago" the second |
| `Dashboard.QueryHits` | src/components/Views/Dashboard.tsx:27-38 | a blank query keeps the whole list; otherwise an order-preserving subsequence of exactly the matching records |
| `Dashboard.DashboardListContents` | src/components/Views/Dashboard.tsx:40-49 | "all" shows the hits in store order; "recent" and "popular" show all hits, newest or most popular first; "my" shows exactly the user's hits |
| `Dashboard.RenderAsWrittenKeepsRecords` | src/components/Views/Dashboard.tsx:42-44 | the in-place sort reorders the store and loses or adds no record |
| `Dashboard.RenderAsWrittenReordersStore` | src/components/Views/Dashboard.tsx:42 | two records stored oldest first are left newest first in the store after the "recent" tab is shown with an empty search |
| `Dashboard.GreetingIsEndOfName` | src/components/Views/Dashboard.tsx:111 | the greeting is an ending of the user's name; a name of at most two words is greeted in full, and a name with two spaces or more by exactly its last two words: a text holding one space that follows a space of the name |
| `Dashboard.DashboardView.constructor` | src/components/Views/Dashboard.tsx:18-23 | tab "all", page 1 |
| `Dashboard.DashboardView.SetQuickFilter` | src/components/Views/Dashboard.tsx:57-59 | the tab changes; the page returns to 1 when the tab is different |
| `Dashboard.DashboardView.SyncQuery` | src/components/Views/Dashboard.tsx:57-59 | a different search text returns the page to 1 |
| `Dashboard.DashboardView.GoToPage` | src/components/Views/Dashboard.tsx:342-345 | a numbered button sets that page |
| `Dashboard.DashboardView.PreviousPage` | src/components/Views/Dashboard.tsx:334 | the page becomes `max(1, page - 1)` |
| `Dashboard.DashboardView.NextPageClick` | src/components/Views/Dashboard.tsx:358 | the page becomes `min(totalPages, page + 1)` |
| `Dashboard.DashboardView.Visible` | src/components/Views/Dashboard.tsx:26-55 | the rows and the page count of the current page of the dashboard list, with the store left unchanged |
| `Dashboard.DashboardView.VisibleAsWritten` | src/components/Views/Dashboard.tsx:26-55 | the same rows and count, while the store's list is left sorted when the search is blank and the tab is "recent" or "popular" |
| `DocumentList.ListQueryIsNarrower` | src/components/Views/DocumentList.tsx:19-26 | every hit of this search is a hit of the store-wide search |
| `DocumentList.ListQueryIgnoresContent` | src/components/Views/DocumentList.tsx:21-25 | a query found only in the content is not a hit here |
| `DocumentList.SortKeysArePreorders` | src/components/Views/DocumentList.tsx:38-42 | the views, rating and title comparisons are total and transitive |
| `DocumentList.OrderForIsPreorder` | src/components/Views/DocumentList.tsx:34-45 | every sort key orders records by a total preorder |
| `DocumentList.ListViewContents` | src/components/Views/DocumentList.tsx:15-46 | the list is in the key's order and holds each of the user's records that passes the search and the visibility selector, as often as it is stored |
| `DocumentList.VisibilityLabelsDistinct` | src/components/Views/DocumentList.tsx:87-94 | the three visibilities get three different labels, none of them the fallback |
| `DocumentList.SumOfRatingsBounded` | src/components/Views/DocumentList.tsx:117 | the sum of averages in 0..5 lies between 0 and 5 times the count |
| `DocumentList.AverageRatingInRange` | src/components/Views/DocumentList.tsx:116-118 | there is an average exactly when the user has records, and it lies in 0..5 |
| `DocumentList.DocumentListView.constructor` | src/components/Views/DocumentList.tsx:7-10 | sort "recent", all visibilities, empty search, page 1 |
| `DocumentList.DocumentListView.SetSortBy` | src/components/Views/DocumentList.tsx:49-51 | the sort key changes; the page returns to 1 when it is different |
| `DocumentList.DocumentListView.SetFilterBy` | src/components/Views/DocumentList.tsx:49-51 | the selector changes; the page returns to 1 when it is different |
| `DocumentList.DocumentListView.SetSearchQuery` | src/components/Views/DocumentList.tsx:49-51 | the search changes; the page returns to 1 when it is different |
| `DocumentList.DocumentListView.GoToPage` | src/components/Views/DocumentList.tsx:399-402 | a numbered button sets that page |
| `DocumentList.DocumentListView.PreviousPage` | src/components/Views/DocumentList.tsx:391 | the page becomes `max(page - 1, 1)` |
| `DocumentList.DocumentListView.NextPageClick` | src/components/Views/DocumentList.tsx:415 | the page becomes `min(page + 1, totalPages)` |
| `DocumentList.DocumentListView.Visible` | src/components/Views/DocumentList.tsx:13-56 | the current page of the user's searched, narrowed and sorted list, the page count, and whether the pager is drawn, which is when there are more than five records |
| `DocumentList.DocumentListView.Delete` | src/components/Views/DocumentList.tsx:109-113 | only a confirmed delete reaches the store: it removes the records with that id and clears the selection exactly when the selection has that id; an unconfirmed delete keeps documents and selection; user, filters and sign-in state stay |
| `Analytics.TallyIsCount` | src/components/Views/Analytics.tsx:17-20 | the dictionary has exactly the keys read, each with the number of times it was read; the key order lists each key once |
| `Analytics.SumCountsIgnoresOthers` | src/components/Views/Analytics.tsx:17-20 | a key outside the key order does not affect the sum of counts |
| `Analytics.SumCountsBump` | src/components/Views/Analytics.tsx:18 | counting one more occurrence of a listed key adds one to the sum of counts |
| `Analytics.TallyTotal` | src/components/Views/Analytics.tsx:17-20 | the counts of a tally add up to the number of keys read |
| `Analytics.Tally` | src/components/Views/Analytics.tsx:17-20 | the loop's dictionary and key order are the tally of the keys |
| `Analytics.Entries` | src/components/Views/Analytics.tsx:31 | `Object.entries`: one pair per key, in key order, with its count |
| `Analytics.CountFirstIsPreorder` | src/components/Views/Analytics.tsx:32 | the by-count comparison is total and transitive |
| `Analytics.EntriesAreCounts` | src/components/Views/Analytics.tsx:31 | the entries are exactly the keys read, each with its number of occurrences |
| `Analytics.RankedIsTop` | src/components/Views/Analytics.tsx:31-33 | a ranking lists `min(k, distinct keys)` keys read, each with its count, largest count first |
| `Analytics.RankedOmitsOnlyLesser` | src/components/Views/Analytics.tsx:31-33 | no key left out of a ranking occurs more often than a listed one |
| `Analytics.RankedAllIsComplete` | src/components/Views/Analytics.tsx:36-37 | the department ranking, which is not cut, lists every department |
| `Analytics.DepartmentKeys` | src/components/Views/Analytics.tsx:18 | one key per document, its department |
| `Analytics.AuthorKeys` | src/components/Views/Analytics.tsx:68 | one key per document, its author's name |
| `Analytics.TagLists` | src/components/Views/Analytics.tsx:24 | each document's tag list, in store order |
| `Analytics.WeightedSumBounded` | src/components/Views/Analytics.tsx:14 | with averages in 0..5, the weighted sum lies between 0 and 5 times the number of ratings |
| `Analytics.WeightedAverageInRange` | src/components/Views/Analytics.tsx:14 | there is an average exactly when some rating was submitted, and it lies in 0..5 |
| `Analytics.UnratedRecordIgnored` | src/components/Views/Analytics.tsx:14 | a record nobody rated does not move the weighted average |
| `Analytics.TallyTotals` | src/components/Views/Analytics.tsx:17-28 | department and author counts add up to the number of documents, tag counts to the number of tag occurrences |
| `Analytics.Summarize` | src/components/Views/Analytics.tsx:11-74 | every figure of the page: totals, weighted average, the three tallies and the three rankings (ten tags, every department, five authors) |
| `Upload.CheckFileVerdicts` | src/components/Views/Upload.tsx:50-68 | a file is accepted exactly when it is at most 10 MiB and of a listed type; a larger file is refused for its size whatever its type; exactly 10 MiB passes |
| `Upload.DocxHasNoPdf` | src/components/Views/Upload.tsx:59 | the long Word type does not contain "pdf" |
| `Upload.AllowedTypesDerive` | src/components/Views/Upload.tsx:102-108 | PDF gives "pdf", both Word types "doc", the three image types "image" |
| `Upload.ExtensionUnique` | src/components/Views/Upload.tsx:111 | a name has at most one extension as the pattern defines it |
| `Upload.FindExtension` | src/components/Views/Upload.tsx:111 | the scan finds the position where the pattern matches, or there is none |
| `Upload.StripExtension` | src/components/Views/Upload.tsx:111 | the name is cut before its extension when it has one and kept whole otherwise |
| `Upload.StripExtensionExamples` | src/components/Views/Upload.tsx:111 | "report.pdf" becomes "report", "backup.tar.gz" "backup.tar", ".env" empty; "notes" and "draft." stay |
| `Upload.SuggestedTagsAreClean` | src/components/Views/Upload.tsx:33-38 | every suggested tag is clean, so it survives being written into the tag field |
| `Upload.AddSuggestedTagEffect` | src/components/Views/Upload.tsx:335-341 | a tag already listed leaves the field as it is; otherwise the field then stands for the old tags followed by the new one |
| `Upload.AddSuggestedTagOnce` | src/components/Views/Upload.tsx:335-341 | a second click on the same tag changes nothing |
| `Upload.NextStepMoves` | src/components/Views/Upload.tsx:115-122 | "next" moves ahead by at most one step and never past 3; step 1 moves exactly when there is a title and content or a file; step 2 always moves |
| `Upload.TicksFromStart` | src/components/Views/Upload.tsx:73-99 | after `k` ticks the bar shows `10k` percent, capped at 100, and the upload is complete from the tenth tick |
| `Upload.TickKeepsRange` | src/components/Views/Upload.tsx:80-98 | a tick keeps the bar within 0..100, never lowers it, keeps the file name, and shows 100 exactly when complete |
| `Upload.UploadedDocumentWellFormed` | src/components/Views/Upload.tsx:125-139 | the published record always has content (the typed text when there is any), clean tags, the user's name, id and department, the chosen type, and names a file exactly when one was chosen |
| `Upload.UploadForm.constructor` | src/components/Views/Upload.tsx:8-20 | an empty public form of type "text" on step 1 |
| `Upload.UploadForm.SetTitle` | src/components/Views/Upload.tsx:270 | only the title changes |
| `Upload.UploadForm.SetContent` | src/components/Views/Upload.tsx:280 | only the content changes |
| `Upload.UploadForm.SetTags` | src/components/Views/Upload.tsx:353 | only the tag field changes |
| `Upload.UploadForm.SetVisibility` | src/components/Views/Upload.tsx:405 | only the visibility changes |
| `Upload.UploadForm.EditSummary` | src/components/Views/Upload.tsx:323 | only the summary changes |
| `Upload.UploadForm.HandleFileUpload` | src/components/Views/Upload.tsx:45-113 | no file or a refused file changes nothing (a refusal returns its alert); an accepted file is remembered, starts the bar at 0, derives the type and sets the title to the name without its extension |
| `Upload.UploadForm.TickProgress` | src/components/Views/Upload.tsx:79-99 | the progress takes one tick; the form stays valid |
| `Upload.UploadForm.HandleNext` | src/components/Views/Upload.tsx:115-122 | the step follows the step machine; leaving step 1 sets the drawn summary and suggestions |
| `Upload.UploadForm.Back` | src/components/Views/Upload.tsx:361 | the back buttons on steps 2 and 3 (lines 361 and 450) set step 1 and step 2; nothing else changes |
| `Upload.UploadForm.ClickSuggestedTag` | src/components/Views/Upload.tsx:335-341 | the tag field becomes the field with the suggestion added |
| `Upload.UploadForm.Clear` | src/components/Views/Upload.tsx:142-153 | the form is back to its initial state |
| `Upload.UploadForm.Submit` | src/components/Views/Upload.tsx:124-155 | the form's record, built from the form before the reset, is put in front of the store's list; then the form is emptied |
| `DocumentViewer.CanEditCases` | src/components/Views/DocumentViewer.tsx:106 | an administrator may edit every record and anyone else exactly their own |
| `DocumentViewer.SaveChangesOnlyEditedFields` | src/components/Views/DocumentViewer.tsx:88-95 | a save changes title, content, tags and visibility, and the update time, and nothing else |
| `DocumentViewer.SaveUntouchedKeepsRecord` | src/components/Views/DocumentViewer.tsx:22 | with clean tags, the tag field parses back to the same tags, and saving an untouched form changes only the update time |
| `DocumentViewer.CommaTagIsSplit` | src/components/Views/DocumentViewer.tsx:89 | a tag containing a comma comes back from the field as two tags |
| `DocumentViewer.SaveTagsSettle` | src/components/Views/DocumentViewer.tsx:89 | saving the saved tags again gives the same tags |
| `DocumentViewer.ClickLightsUpTo` | src/components/Views/DocumentViewer.tsx:73-83 | after a click on star `i` the interactive bar lights exactly `i + 1` stars, `i` included and `i + 1` not |
| `DocumentViewer.ViewerState.constructor` | src/components/Views/DocumentViewer.tsx:7-14 | no rating given, not editing, an empty public form |
| `DocumentViewer.ViewerState.Open` | src/components/Views/DocumentViewer.tsx:16-26 | with a selection, its views go up by one and the form is filled from it; without one nothing changes |
| `DocumentViewer.ViewerState.ToggleEditing` | src/components/Views/DocumentViewer.tsx:120-123 | offered only to a user who may edit the selected record; editing switches on or off, and the rating and form stay |
| `DocumentViewer.ViewerState.SetEditData` | src/components/Views/DocumentViewer.tsx:9-14 | only the form changes |
| `DocumentViewer.ViewerState.SaveEdit` | src/components/Views/DocumentViewer.tsx:88-97 | offered only while editing; the selected id gets the form's four fields, tags parsed; editing ends |
| `DocumentViewer.ViewerState.Delete` | src/components/Views/DocumentViewer.tsx:99-106 | offered only to a user who may edit the record; a confirmed delete removes the record and leaves nothing selected; otherwise nothing changes |
| `DocumentViewer.ViewerState.StarClick` | src/components/Views/DocumentViewer.tsx:77-83 | on the interactive bar star `i` records and submits `i + 1`, within 1..5; the read-only bar ignores clicks |
| `DocumentViewer.ViewerState.Close` | src/components/Views/DocumentViewer.tsx:113 | the selection is cleared |
| `AppShell.RenderViewPriorities` | src/App.tsx:25-52 | signed out always shows the sign-in page; signed in, a selection always shows the viewer; otherwise the view decides |
| `AppShell.KnownViews` | src/App.tsx:43-51 | the five other named views reach their screens; every other name, "analytics" among them, shows the dashboard |
| `AppShell.Shell.constructor` | src/App.tsx:17 | the view starts at "dashboard" |
| `AppShell.Shell.HandleViewChange` | src/App.tsx:33-36 | the view changes and the selection is cleared, so a signed-in user sees the chosen view |
| `AppShell.Shell.HandleUploadClick` | src/App.tsx:29-31 | the view becomes "upload" but an open document stays in front |
| `Community.FeedIsHead` | src/components/Views/Community.tsx:162 | the feed is the first `min(5, n)` records in store order; a record just added leads it |
| `Community.SampleCommentCounts` | src/components/Views/Community.tsx:35-76 | record "1" shows 2 comments, record "2" shows 1 (replies are not counted), every other record 0 |
| `Community.ToggleFlipsOne` | src/components/Views/Community.tsx:113-118 | a toggle flips the one entry (absent counts as closed) and no other; two toggles restore what is shown |
| `Community.AfterSendLeavesBlank` | src/components/Views/Community.tsx:105-111 | after "send" the box is blank; a box holding only whitespace is left as it is; a second send changes nothing |
| `Community.InteractiveBarIsDark` | src/components/Views/Community.tsx:120-135 | both bars light `floor(rating)` stars, so the interactive bar, drawn with 0, lights none |
| `Community.CommunityView.constructor` | src/components/Views/Community.tsx:30-32 | an empty draft and no open comments |
| `Community.CommunityView.ToggleComments` | src/components/Views/Community.tsx:113-118 | the open-comments map takes the toggle; the draft is kept |
| `Community.CommunityView.SetNewComment` | src/components/Views/Community.tsx:225 | only the draft changes |
| `Community.CommunityView.HandleComment` | src/components/Views/Community.tsx:105-111 | the draft is cleared exactly when it held more than whitespace |
| `Community.CommunityView.StarClick` | src/components/Views/Community.tsx:129-133 | a click rates the record with `i + 1` only on an interactive bar that names a record |

## Left out

- Network, storage and the other screens: the sign-in page's request and token storage, the remote search, the header, the sidebar, the quick-start tables and the JSX. `AppStore.Login` models only the store's credential check.
- Timers:
  - the 1.5 s delay of `login` and its intermediate "loading" state;
  - the 2 s wait of the summary generator and the `isGenerating` flag;
  - the 200 ms progress timer. One `Tick`/`TickProgress` is one firing. A second accepted file starts a second timer, and a timer keeps firing on an emptied bar; both only mean more ticks.
- React scheduling:
  - effects, memoisation and StrictMode double runs;
  - the viewer's effect re-running whenever the store changes, because the `viewDocument` function is re-created on every render. `ViewerState.Open` is one run of that effect. As the source is written the runs do not stop while a document is selected: each run calls `viewDocument`, which replaces `documents`, so the provider re-renders, re-creates `viewDocument`, and the effect's dependency changes again (DocumentViewer.tsx:16-26, AppContext.tsx:1571-1575). The view count then grows without bound, and every run refills the edit form from the selection, overwriting typed edits. Effect scheduling is outside this model, so this repetition is not modelled.
- Dates: timestamps are integer milliseconds; ISO strings and `Date` parsing are left out. The day and hour labels take `now` minus the timestamp as `diffMs`.
- Numbers: JavaScript numbers are `nat` for counts and sizes and `real` for ratings. Rounding, `toFixed`, `toLocaleString`, percentage bars and `getMaxValue` are left out.
- Strings:
  - `toLowerCase` covers only the ASCII letters;
  - `localeCompare` is code-point order;
  - text is compared as code points, with no Unicode normalisation.
- `Object.entries` order: the tallies keep first-seen order, which JavaScript does not use for integer-like keys. The rankings are proved sorted, complete and bounded, so only the order of equal counts depends on this.
- Updates and selections:
  - an update is modelled field by field, with `None` for an absent key; a key that is present but set to `undefined` is not modelled;
  - the selection is a snapshot: later updates do not refresh it, in the source as in the model.
- Randomness, dialogs and alerts:
  - the summary and tag suggestions are drawn with `Math.random`; `HandleNext` takes the two drawn indices;
  - `window.confirm` is a boolean parameter;
  - `alert` texts are returned, or not modelled when they report success.
- Seed data and `activeView` in the context: the seed data is an arbitrary initial list, and the context's copy of `activeView` is not modelled.
- Input values: the list's sort key and visibility come from `<select>` elements (DocumentList.tsx:214-234), and the dashboard's quick filter from four buttons with the ids all, recent, popular and my (Dashboard.tsx:197-205). Each can only produce the values it lists, so the "any other value" branches of the sort key and of the quick filter are unreachable and not modelled. The visibility selector is `Option<Visibility>`, with `None` for "all".
- Where the written description and the code differ, the model follows the code:
  - the store search does not trim the query;
  - an update may rewrite `id`, `authorId` and `createdAt`;
  - a rating is not range-checked;
  - equal popularity scores keep store order, with no tie-break by date.
- Analytics.Tally: does not model keys named like `Object.prototype` members. The tallies count into a plain `{}` with `acc[key] = (acc[key] || 0) + 1` (Analytics.tsx:18, 25 and 68). A department, author or tag spelled `constructor`, `toString`, `valueOf`, `hasOwnProperty` and the like first reads the inherited function, so its "count" becomes a string and the ranking compares NaN; a key `__proto__` is dropped from `Object.entries`. `Analytics.Tally` counts every key alike, so its results and the rankings built on them hold only for keys that are not `Object.prototype` property names.
- Sort stability: `SortBy` is a stable insertion sort. The model proves that the result is sorted and a permutation, but not that it is stable.

## Findings

| source | as written | input that shows it | evidently intended | confidence | as-written member | corrected member |
|---|---|---|---|---|---|---|
| src/components/Views/Dashboard.tsx:27-44 | `filtered` starts as the store's own `documents` array, and the "recent" and "popular" tabs call `filtered.sort(...)`. With a blank search that sorts the store's array in place. | the search box is empty, the tab is "recent", and the store holds `[a (created 1), b (created 2)]`: after the dashboard renders, the store holds `[b, a]`, and the community feed and every other view see the new order | sort a copy, as `getRecentDocuments` does, so that the store keeps its order | high (not executed) | `Dashboard.DashboardView.VisibleAsWritten`, `Dashboard.RenderAsWrittenReordersStore` | `Dashboard.DashboardView.Visible` |
