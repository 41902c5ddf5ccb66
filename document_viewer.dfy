/** The page of one selected document: its rating stars, the edit form for
    its owner or an administrator, and deletion. */
module DocumentViewer {
  import opened Types
  import opened Text
  import opened Store
  import opened Display

  /** The permission that lets a user edit anyone's documents. */
  const AdminPermission := "admin"

  /** The edit and delete buttons are offered to the author and to
      administrators. */
  predicate CanEdit(d: Document, user: User)
  {
    d.authorId == user.id || AdminPermission in user.permissions
  }

  /** An administrator may edit every record, anyone else exactly their own;
      whether one may edit does not depend on anything else in the record. */
  lemma CanEditCases(d: Document, user: User)
    ensures AdminPermission in user.permissions ==> CanEdit(d, user)
    ensures AdminPermission !in user.permissions ==> (CanEdit(d, user) <==> d.authorId == user.id)
    ensures CanEdit(d, user) <==> CanEdit(d.(title := "", content := "", tags := [], views := 0), user)
  {
  }

  /** What the edit form holds; the tags are one comma-separated field. */
  datatype EditData = EditData(title: string, content: string, tags: string, visibility: Visibility)

  /** The form filled from a record: its tags are joined with ", ". */
  function EditDataOf(d: Document): EditData
  {
    EditData(d.title, d.content, Join(d.tags, ", "), d.visibility)
  }

  /** Saving sends these four fields and no other. */
  function EditPatch(e: EditData): DocumentPatch
  {
    NoChanges.(title := Some(e.title), content := Some(e.content), tags := Some(ParseTags(e.tags)),
               visibility := Some(e.visibility))
  }

  /** A saved record differs from the stored one only in the four edited
      fields and the update time. */
  lemma SaveChangesOnlyEditedFields(d: Document, e: EditData, now: int)
    ensures Merge(d, EditPatch(e), now) ==
              d.(title := e.title, content := e.content, tags := ParseTags(e.tags),
                 visibility := e.visibility, updatedAt := now)
  {
  }

  /** Clean tags survive the trip through the text field: opening the form
      and saving it untouched changes only the update time. */
  lemma SaveUntouchedKeepsRecord(d: Document, now: int)
    requires forall i :: 0 <= i < |d.tags| ==> CleanTag(d.tags[i])
    ensures ParseTags(EditDataOf(d).tags) == d.tags
    ensures Merge(d, EditPatch(EditDataOf(d)), now) == d.(updatedAt := now)
  {
    ParseJoin(d.tags);
  }

  /** A tag with a comma in it does not survive: it comes back as two. */
  lemma CommaTagIsSplit(a: string, b: string)
    requires CleanTag(a) && CleanTag(b)
    ensures ParseTags(Join([a + [','] + b], ", ")) == [a, b]
  {
    var pieces := Split(a + [','] + b, ',');
    SplitAppend(a, b, ',');
    SplitNoSeparator(b, ',');
    assert pieces == [a, b];
    TrimIdentity(a);
    TrimIdentity(b);
    assert TrimAll(pieces) == [a, b];
  }

  /** A second save of the saved tags gives the same tags again. */
  lemma SaveTagsSettle(field: string)
    ensures ParseTags(Join(ParseTags(field), ", ")) == ParseTags(field)
  {
    ParseTagsIdempotent(field);
  }

  /** The level the page's star bar lights: the stars the user clicked on the
      interactive bar, the whole part of the average on the read-only one. */
  function ViewerStarLevel(interactive: bool, userRating: int, rating: real): int
  {
    if interactive then userRating else StarLevel(rating)
  }

  /** After a click on star `i` the interactive bar lights stars `0..i`. */
  lemma ClickLightsUpTo(i: nat, rating: real)
    requires i < StarCount
    ensures StarFilled(i, ViewerStarLevel(true, i + 1, rating))
    ensures !StarFilled(i + 1, ViewerStarLevel(true, i + 1, rating))
    ensures FilledAmong(ViewerStarLevel(true, i + 1, rating), StarCount) == i + 1
  {
    FilledIsClamped(i + 1, StarCount);
  }

  /** The page's own state. */
  class ViewerState {
    var userRating: int
    var isEditing: bool
    var editData: EditData

    ghost predicate Valid()
      reads this
    {
      0 <= userRating <= StarCount
    }

    constructor ()
      ensures Valid()
      ensures userRating == 0 && !isEditing && editData == EditData("", "", "", Public)
    {
      userRating := 0;
      isEditing := false;
      editData := EditData("", "", "", Public);
    }

    /** The effect run for a selected record: one more view in the store and
        the form refilled from the selection. */
    method Open(store: AppStore)
      modifies this, store
      ensures store.selectedDocument.Some? ==>
                store.documents == ViewAll(old(store.documents), store.selectedDocument.value.id)
                && editData == EditDataOf(store.selectedDocument.value)
      ensures store.selectedDocument.None? ==>
                store.documents == old(store.documents) && editData == old(editData)
      ensures store.selectedDocument == old(store.selectedDocument)
      ensures store.user == old(store.user) && store.searchFilters == old(store.searchFilters)
      ensures store.authState == old(store.authState)
      ensures userRating == old(userRating) && isEditing == old(isEditing)
    {
      if store.selectedDocument.Some? {
        var sel := store.selectedDocument.value;
        store.ViewDocument(sel.id);
        editData := EditDataOf(sel);
      }
    }

    /** The edit button switches between viewing and editing; the page
        draws it only for a user who may edit the selected record. */
    method ToggleEditing(store: AppStore)
      requires store.selectedDocument.Some? && CanEdit(store.selectedDocument.value, store.user)
      modifies this
      ensures isEditing == !old(isEditing)
      ensures userRating == old(userRating) && editData == old(editData)
    {
      isEditing := !isEditing;
    }

    /** A keystroke or a choice in the edit form. */
    method SetEditData(e: EditData)
      modifies this
      ensures editData == e
      ensures userRating == old(userRating) && isEditing == old(isEditing)
    {
      editData := e;
    }

    /** "Save": the selected id gets the form's four fields, the tags parsed
        from the field; the form closes. The button exists only while
        editing. */
    method SaveEdit(store: AppStore, now: int)
      requires store.selectedDocument.Some? && isEditing
      modifies this, store
      ensures store.documents ==
                UpdateAll(old(store.documents), old(store.selectedDocument).value.id, EditPatch(editData), now)
      ensures !isEditing && editData == old(editData) && userRating == old(userRating)
      ensures store.selectedDocument == old(store.selectedDocument)
      ensures store.user == old(store.user) && store.searchFilters == old(store.searchFilters)
      ensures store.authState == old(store.authState)
    {
      store.UpdateDocument(store.selectedDocument.value.id, EditPatch(editData), now);
      isEditing := false;
    }

    /** "Delete", after the confirmation dialog: a confirmed delete removes
        the record and leaves nothing selected. The button is drawn beside
        the edit button, for a user who may edit the record. */
    method Delete(store: AppStore, confirmed: bool)
      requires store.selectedDocument.Some? && CanEdit(store.selectedDocument.value, store.user)
      modifies store
      ensures confirmed ==>
                store.documents == RemoveId(old(store.documents), old(store.selectedDocument).value.id)
                && store.selectedDocument == None
      ensures !confirmed ==>
                store.documents == old(store.documents) && store.selectedDocument == old(store.selectedDocument)
      ensures store.user == old(store.user) && store.searchFilters == old(store.searchFilters)
      ensures store.authState == old(store.authState)
    {
      if confirmed {
        store.DeleteDocument(store.selectedDocument.value.id);
        store.SetSelectedDocument(None);
      }
    }

    /** A click on star `i` (from 0). On the interactive bar it records
        `i + 1`, always within 1..5, as the user's rating and submits it;
        the read-only bar ignores clicks. */
    method StarClick(store: AppStore, i: nat, interactive: bool)
      requires Valid() && i < StarCount && store.selectedDocument.Some?
      modifies this, store
      ensures Valid()
      ensures interactive ==>
                && userRating == i + 1 && 1 <= userRating <= StarCount
                && store.documents ==
                     RateAll(old(store.documents), old(store.selectedDocument).value.id, (i + 1) as real)
      ensures !interactive ==> userRating == old(userRating) && store.documents == old(store.documents)
      ensures isEditing == old(isEditing) && editData == old(editData)
      ensures store.selectedDocument == old(store.selectedDocument)
      ensures store.user == old(store.user) && store.searchFilters == old(store.searchFilters)
      ensures store.authState == old(store.authState)
    {
      if interactive {
        userRating := i + 1;
        store.RateDocument(store.selectedDocument.value.id, (i + 1) as real);
      }
    }

    /** The back button: the selection is cleared. */
    method Close(store: AppStore)
      modifies store
      ensures store.selectedDocument == None
      ensures store.documents == old(store.documents) && store.user == old(store.user)
      ensures store.searchFilters == old(store.searchFilters) && store.authState == old(store.authState)
    {
      store.SetSelectedDocument(None);
    }
  }
}
