/** The three-step upload form: pick a file or type the content, review the
    generated summary and tags, then choose a visibility and publish. */
module Upload {
  import opened Types
  import opened Text
  import opened Seqs
  import opened Store

  // ---------------------------------------------------------------------
  // Accepting a file

  /** The size limit, 10 MB. */
  const MaxFileSize := 10 * 1024 * 1024

  const PdfMime := "application/pdf"
  const WordMime := "application/msword"
  /** "application/vnd.openxmlformats-officedocument.wordprocessingml.document",
      written piece by piece. */
  const DocxMime := "application" + "/" + "vnd" + "." + "openxmlformats" + "-" + "officedocument" + "." + "wordprocessingml" + "." + "document"
  const JpegMime := "image/jpeg"
  const PngMime := "image/png"
  const GifMime := "image/gif"

  /** The MIME types the picker accepts. */
  const AllowedTypes := [PdfMime, WordMime, DocxMime, JpegMime, PngMime, GifMime]

  const TooLargeAlert := "File size must be less than 10MB"
  const UnsupportedAlert := "Only PDF, Word documents, and images are allowed"

  /** What the browser reports about a chosen file. */
  datatype FileInfo = FileInfo(name: string, size: nat, mimeType: string)

  datatype FileCheck = Accepted | TooLarge | UnsupportedType

  /** The size is checked before the type. */
  function CheckFile(f: FileInfo): FileCheck
  {
    if f.size > MaxFileSize then TooLarge
    else if f.mimeType !in AllowedTypes then UnsupportedType
    else Accepted
  }

  /** A file is accepted exactly when it is at most 10 MB and of a listed
      type; an oversized file is refused for its size whatever its type. */
  lemma CheckFileVerdicts(f: FileInfo)
    ensures CheckFile(f) == Accepted <==> f.size <= MaxFileSize && f.mimeType in AllowedTypes
    ensures CheckFile(f) == TooLarge <==> f.size > MaxFileSize
    ensures CheckFile(f) == UnsupportedType <==> f.size <= MaxFileSize && f.mimeType !in AllowedTypes
    ensures CheckFile(FileInfo(f.name, 10485760, PdfMime)) == Accepted
    ensures CheckFile(FileInfo(f.name, 10485761, PdfMime)) == TooLarge
  {
  }

  /** The form's file type after a file of type `mime` is accepted: the type
      string is searched for "pdf", then "word" or "document", then "image";
      with none of them the previous choice stays. */
  function DeriveFileType(mime: string, previous: FileType): FileType
  {
    if Includes(mime, "pdf") then Pdf
    else if Includes(mime, "word") || Includes(mime, "document") then Doc
    else if Includes(mime, "image") then Image
    else previous
  }

  /** The long Word type does not contain "pdf": every piece between its
      separators lacks one of the three letters. */
  lemma DocxHasNoPdf()
    ensures !Includes(DocxMime, "pdf")
  {
    var p1 := "application";
    MissingCharExcludes(p1, "pdf", 'd');
    MissingCharExcludes("vnd", "pdf", 'p');
    IncludesSplitAt(p1, '/', "vnd", "pdf");
    var p2 := p1 + "/" + "vnd";
    MissingCharExcludes("openxmlformats", "pdf", 'd');
    IncludesSplitAt(p2, '.', "openxmlformats", "pdf");
    var p3 := p2 + "." + "openxmlformats";
    MissingCharExcludes("officedocument", "pdf", 'p');
    IncludesSplitAt(p3, '-', "officedocument", "pdf");
    var p4 := p3 + "-" + "officedocument";
    MissingCharExcludes("wordprocessingml", "pdf", 'f');
    IncludesSplitAt(p4, '.', "wordprocessingml", "pdf");
    var p5 := p4 + "." + "wordprocessingml";
    MissingCharExcludes("document", "pdf", 'p');
    IncludesSplitAt(p5, '.', "document", "pdf");
  }

  /** Every accepted type sets a file type: PDF to "pdf", the two Word types
      to "doc", the three image types to "image". */
  lemma AllowedTypesDerive(previous: FileType)
    ensures DeriveFileType(PdfMime, previous) == Pdf
    ensures DeriveFileType(WordMime, previous) == Doc
    ensures DeriveFileType(DocxMime, previous) == Doc
    ensures DeriveFileType(JpegMime, previous) == Image
    ensures DeriveFileType(PngMime, previous) == Image
    ensures DeriveFileType(GifMime, previous) == Image
  {
    assert OccursAt(PdfMime, "pdf", 12);
    MissingCharExcludes(WordMime, "pdf", 'f');
    assert OccursAt(WordMime, "word", 14);
    DocxHasNoPdf();
    IncludesSuffix("application" + "/" + "vnd" + "." + "openxmlformats" + "-" + "officedocument" + "." + "wordprocessingml" + ".", "document");
    MissingCharExcludes(JpegMime, "pdf", 'd');
    MissingCharExcludes(JpegMime, "word", 'w');
    MissingCharExcludes(JpegMime, "document", 'd');
    assert OccursAt(JpegMime, "image", 0);
    MissingCharExcludes(PngMime, "pdf", 'd');
    MissingCharExcludes(PngMime, "word", 'w');
    MissingCharExcludes(PngMime, "document", 'd');
    assert OccursAt(PngMime, "image", 0);
    MissingCharExcludes(GifMime, "pdf", 'd');
    MissingCharExcludes(GifMime, "word", 'w');
    MissingCharExcludes(GifMime, "document", 'd');
    assert OccursAt(GifMime, "image", 0);
  }

  // ---------------------------------------------------------------------
  // The title taken from the file name: `name.replace(/\.[^/.]+$/, "")`

  /** Position `i` starts an extension: a dot followed by at least one
      character, none of them a dot or a slash, up to the end. */
  predicate ExtensionAt(name: string, i: int)
  {
    0 <= i < |name| - 1 && name[i] == '.'
    && forall j :: i < j < |name| ==> name[j] != '.' && name[j] != '/'
  }

  /** A name has at most one extension. */
  lemma ExtensionUnique(name: string, i: int, j: int)
    requires ExtensionAt(name, i) && ExtensionAt(name, j)
    ensures i == j
  {
  }

  /** Scans `name[..k]` backwards for the dot that starts the extension; the
      part from `k` on is known to hold no dot and no slash. */
  function FindExtension(name: string, k: nat): (r: Option<nat>)
    requires k <= |name|
    requires forall j :: k <= j < |name| ==> name[j] != '.' && name[j] != '/'
    ensures r.Some? ==> ExtensionAt(name, r.value)
    ensures r.None? ==> forall i :: !ExtensionAt(name, i)
    decreases k
  {
    if k == 0 then None
    else if name[k - 1] == '/' then None
    else if name[k - 1] == '.' then (if k < |name| then Some(k - 1) else None)
    else FindExtension(name, k - 1)
  }

  /** The title a file name gives: the name without its extension, or the
      whole name when it has none. */
  function StripExtension(name: string): (r: string)
    ensures forall i :: ExtensionAt(name, i) ==> r == name[..i]
    ensures (forall i :: !ExtensionAt(name, i)) ==> r == name
  {
    match FindExtension(name, |name|)
    case Some(i) => name[..i]
    case None => name
  }

  /** Only the last extension goes; a name that is all extension becomes
      empty; a trailing dot is kept. */
  lemma StripExtensionExamples()
    ensures StripExtension("report.pdf") == "report"
    ensures StripExtension("backup.tar.gz") == "backup.tar"
    ensures StripExtension(".env") == ""
    ensures StripExtension("notes") == "notes"
    ensures StripExtension("draft.") == "draft."
  {
    assert ExtensionAt("report.pdf", 6);
    assert ExtensionAt("backup.tar.gz", 10);
    assert ExtensionAt(".env", 0);
  }

  // ---------------------------------------------------------------------
  // The generated summary and tags

  const SummaryChoices := [
    "This document provides comprehensive insights into modern development practices and methodologies for enterprise environments.",
    "Essential technical guidelines and best practices for implementing scalable solutions in corporate settings.",
    "Strategic overview of implementation approaches with practical examples and detailed case studies.",
    "Comprehensive knowledge compilation covering fundamental concepts and advanced techniques for professionals."
  ]

  const TagChoices := [
    ["Development", "Best Practices", "Technical", "Enterprise"],
    ["Documentation", "Guidelines", "Process", "Standards"],
    ["Strategy", "Implementation", "Framework", "Architecture"],
    ["Knowledge", "Tutorial", "Guide", "Training"]
  ]

  /** Every suggested tag survives being written into the tag field. */
  lemma SuggestedTagsAreClean(pick: nat, i: nat)
    requires pick < |TagChoices| && i < |TagChoices[pick]|
    ensures CleanTag(TagChoices[pick][i])
  {
    RowsAreClean();
  }

  /** The sixteen suggestions one by one. */
  lemma RowsAreClean()
    ensures forall pick, i :: 0 <= pick < |TagChoices| && 0 <= i < |TagChoices[pick]| ==>
              CleanTag(TagChoices[pick][i])
  {
    RowIsClean0();
    RowIsClean1();
    RowIsClean2();
    RowIsClean3();
  }

  lemma RowIsClean0()
    ensures CleanTag("Development") && CleanTag("Best Practices")
    ensures CleanTag("Technical") && CleanTag("Enterprise")
  {
  }

  lemma RowIsClean1()
    ensures CleanTag("Documentation") && CleanTag("Guidelines")
    ensures CleanTag("Process") && CleanTag("Standards")
  {
  }

  lemma RowIsClean2()
    ensures CleanTag("Strategy") && CleanTag("Implementation")
    ensures CleanTag("Framework") && CleanTag("Architecture")
  {
  }

  lemma RowIsClean3()
    ensures CleanTag("Knowledge") && CleanTag("Tutorial")
    ensures CleanTag("Guide") && CleanTag("Training")
  {
  }

  // ---------------------------------------------------------------------
  // Adding a suggested tag to the comma-separated field

  /** A click on a suggestion: the field is rewritten as the parsed list plus
      the tag, unless the list already holds it. */
  function AddSuggestedTag(field: string, tag: string): string
  {
    var current := ParseTags(field);
    if tag in current then field else Join(current + [tag], ", ")
  }

  /** After a click the field stands for the old list with the tag appended
      once. */
  lemma AddSuggestedTagEffect(field: string, tag: string)
    requires CleanTag(tag)
    ensures tag in ParseTags(field) ==> AddSuggestedTag(field, tag) == field
    ensures tag !in ParseTags(field) ==> ParseTags(AddSuggestedTag(field, tag)) == ParseTags(field) + [tag]
  {
    var current := ParseTags(field);
    if tag !in current {
      ParseTagsClean(field);
      var ts := current + [tag];
      forall i | 0 <= i < |ts| ensures CleanTag(ts[i]) {
        if i < |current| {
          assert ts[i] in current;
        }
      }
      ParseJoin(ts);
      assert AddSuggestedTag(field, tag) == Join(ts, ", ");
    }
  }

  /** A second click on the same tag changes nothing. */
  lemma AddSuggestedTagOnce(field: string, tag: string)
    requires CleanTag(tag)
    ensures AddSuggestedTag(AddSuggestedTag(field, tag), tag) == AddSuggestedTag(field, tag)
  {
    AddSuggestedTagEffect(field, tag);
    if tag !in ParseTags(field) {
      assert tag in ParseTags(field) + [tag];
    }
  }

  // ---------------------------------------------------------------------
  // Steps

  /** The "next" button on the first step is enabled with a title and either
      some content or a chosen file. */
  predicate DetailsComplete(title: string, content: string, hasFile: bool)
  {
    |title| > 0 && (|content| > 0 || hasFile)
  }

  function NextStep(step: int, title: string, content: string, hasFile: bool): int
  {
    if step == 1 && DetailsComplete(title, content, hasFile) then 2
    else if step == 2 then 3
    else step
  }

  /** "Next" moves forward one step, and leaves the first step only with its
      details complete; the form never goes past step 3. */
  lemma NextStepMoves(step: int, title: string, content: string, hasFile: bool)
    requires 1 <= step <= 3
    ensures 1 <= NextStep(step, title, content, hasFile) <= 3
    ensures NextStep(step, title, content, hasFile) == step
            || NextStep(step, title, content, hasFile) == step + 1
    ensures step == 1 ==> (NextStep(step, title, content, hasFile) == 2 <==> DetailsComplete(title, content, hasFile))
    ensures step == 2 ==> NextStep(step, title, content, hasFile) == 3
  {
  }

  // ---------------------------------------------------------------------
  // The simulated transfer

  /** One 200 ms tick of the progress bar: ten points more, capped at 100,
      where the upload is complete. */
  function Tick(p: Option<UploadProgress>): Option<UploadProgress>
  {
    match p
    case None => None
    case Some(u) =>
      if u.progress + 10 >= 100 then Some(u.(progress := 100, status := Completed))
      else Some(u.(progress := u.progress + 10))
  }

  function Ticks(p: Option<UploadProgress>, k: nat): Option<UploadProgress>
  {
    if k == 0 then p else Tick(Ticks(p, k - 1))
  }

  function Started(fileName: string): UploadProgress
  {
    UploadProgress(fileName, 0, Uploading, None)
  }

  /** After `k` ticks the bar shows `10 k` percent, at most 100, and the
      upload is complete from the tenth tick on. */
  lemma {:induction false} TicksFromStart(fileName: string, k: nat)
    ensures Ticks(Some(Started(fileName)), k) ==
              Some(UploadProgress(fileName, if k >= 10 then 100 else 10 * k,
                                  if k >= 10 then Completed else Uploading, None))
  {
    if k > 0 {
      TicksFromStart(fileName, k - 1);
    }
  }

  /** The bar stays within 0..100, and it reads 100 exactly when the upload
      is complete. */
  predicate ProgressInRange(p: Option<UploadProgress>)
  {
    p.None? || (0 <= p.value.progress <= 100 && (p.value.status == Completed <==> p.value.progress == 100))
  }

  lemma TickKeepsRange(p: Option<UploadProgress>)
    requires ProgressInRange(p)
    ensures ProgressInRange(Tick(p))
    ensures p.Some? ==> Tick(p).Some? && Tick(p).value.progress >= p.value.progress
    ensures p.Some? ==> Tick(p).value.fileName == p.value.fileName
  {
  }

  // ---------------------------------------------------------------------
  // Publishing

  /** The record the form submits: the typed content or, without any, a note
      naming the file ("undefined" when there is no file); the parsed tags;
      the author, the author id and the department of the signed-in user. */
  function UploadedDocument(title: string, content: string, tags: string, visibility: Visibility,
                            fileType: FileType, summary: string, file: Option<FileInfo>, user: User): NewDocument
  {
    NewDocument(
      title,
      if |content| > 0 then content
      else "Uploaded file: " + (if file.Some? then file.value.name else "undefined"),
      summary,
      ParseTags(tags),
      user.name,
      user.id,
      visibility,
      Some(fileType),
      if file.Some? then Some(file.value.name) else None,
      if file.Some? then Some(file.value.size) else None,
      user.department,
      [])
  }

  /** A published record always has content, its tags are clean, it belongs
      to the signed-in user, and it names the file exactly when one was
      chosen. */
  lemma UploadedDocumentWellFormed(title: string, content: string, tags: string, visibility: Visibility,
                                   fileType: FileType, summary: string, file: Option<FileInfo>, user: User)
    ensures var d := UploadedDocument(title, content, tags, visibility, fileType, summary, file, user);
            && |d.content| > 0
            && (|content| > 0 ==> d.content == content)
            && (forall t :: t in d.tags ==> CleanTag(t))
            && d.authorId == user.id && d.author == user.name && d.department == user.department
            && (d.fileName.Some? <==> file.Some?)
            && d.fileType == Some(fileType) && d.title == title && d.summary == summary
  {
    ParseTagsClean(tags);
  }

  // ---------------------------------------------------------------------
  // The form

  class UploadForm {
    var title: string
    var content: string
    var tags: string
    var visibility: Visibility
    var fileType: FileType
    var currentStep: int
    var aiSummary: string
    var suggestedTags: seq<string>
    var uploadProgress: Option<UploadProgress>
    var selectedFile: Option<FileInfo>

    ghost predicate Valid()
      reads this
    {
      1 <= currentStep <= 3 && ProgressInRange(uploadProgress)
    }

    /** An empty form on the first step, public, of type "text". */
    constructor ()
      ensures Valid()
      ensures title == "" && content == "" && tags == "" && visibility == Public && fileType == PlainText
      ensures currentStep == 1 && aiSummary == "" && suggestedTags == []
      ensures uploadProgress == None && selectedFile == None
    {
      title := "";
      content := "";
      tags := "";
      visibility := Public;
      fileType := PlainText;
      currentStep := 1;
      aiSummary := "";
      suggestedTags := [];
      uploadProgress := None;
      selectedFile := None;
    }

    method SetTitle(t: string)
      modifies this
      ensures title == t
      ensures content == old(content) && tags == old(tags) && visibility == old(visibility)
      ensures fileType == old(fileType) && currentStep == old(currentStep) && aiSummary == old(aiSummary)
      ensures suggestedTags == old(suggestedTags) && uploadProgress == old(uploadProgress)
      ensures selectedFile == old(selectedFile)
    {
      title := t;
    }

    method SetContent(c: string)
      modifies this
      ensures content == c
      ensures title == old(title) && tags == old(tags) && visibility == old(visibility)
      ensures fileType == old(fileType) && currentStep == old(currentStep) && aiSummary == old(aiSummary)
      ensures suggestedTags == old(suggestedTags) && uploadProgress == old(uploadProgress)
      ensures selectedFile == old(selectedFile)
    {
      content := c;
    }

    method SetTags(field: string)
      modifies this
      ensures tags == field
      ensures title == old(title) && content == old(content) && visibility == old(visibility)
      ensures fileType == old(fileType) && currentStep == old(currentStep) && aiSummary == old(aiSummary)
      ensures suggestedTags == old(suggestedTags) && uploadProgress == old(uploadProgress)
      ensures selectedFile == old(selectedFile)
    {
      tags := field;
    }

    method SetVisibility(v: Visibility)
      modifies this
      ensures visibility == v
      ensures title == old(title) && content == old(content) && tags == old(tags)
      ensures fileType == old(fileType) && currentStep == old(currentStep) && aiSummary == old(aiSummary)
      ensures suggestedTags == old(suggestedTags) && uploadProgress == old(uploadProgress)
      ensures selectedFile == old(selectedFile)
    {
      visibility := v;
    }

    /** The generated summary stays editable on the second step. */
    method EditSummary(s: string)
      modifies this
      ensures aiSummary == s
      ensures title == old(title) && content == old(content) && tags == old(tags)
      ensures visibility == old(visibility) && fileType == old(fileType) && currentStep == old(currentStep)
      ensures suggestedTags == old(suggestedTags) && uploadProgress == old(uploadProgress)
      ensures selectedFile == old(selectedFile)
    {
      aiSummary := s;
    }

    /** A file chosen in the picker (`None` when the dialog was dismissed).
        A refused file changes nothing and yields the alert's text; an
        accepted one is remembered, starts the progress bar at 0, may set
        the file type, and replaces the title by the name without its
        extension. */
    method HandleFileUpload(file: Option<FileInfo>) returns (alert: Option<string>)
      requires Valid()
      modifies this
      ensures Valid()
      ensures file.None? ==> alert == None && unchanged(this)
      ensures file.Some? && CheckFile(file.value) == TooLarge ==> alert == Some(TooLargeAlert) && unchanged(this)
      ensures file.Some? && CheckFile(file.value) == UnsupportedType ==> alert == Some(UnsupportedAlert) && unchanged(this)
      ensures file.Some? && CheckFile(file.value) == Accepted ==>
                && alert == None
                && selectedFile == file
                && uploadProgress == Some(Started(file.value.name))
                && fileType == DeriveFileType(file.value.mimeType, old(fileType))
                && title == StripExtension(file.value.name)
                && content == old(content) && tags == old(tags) && visibility == old(visibility)
                && currentStep == old(currentStep) && aiSummary == old(aiSummary)
                && suggestedTags == old(suggestedTags)
    {
      if file.None? {
        return None;
      }
      var f := file.value;
      match CheckFile(f)
      case TooLarge =>
        alert := Some(TooLargeAlert);
      case UnsupportedType =>
        alert := Some(UnsupportedAlert);
      case Accepted =>
        alert := None;
        selectedFile := file;
        uploadProgress := Some(Started(f.name));
        fileType := DeriveFileType(f.mimeType, fileType);
        title := StripExtension(f.name);
    }

    /** One tick of the upload timer. */
    method TickProgress()
      requires Valid()
      modifies this
      ensures Valid()
      ensures uploadProgress == Tick(old(uploadProgress))
      ensures title == old(title) && content == old(content) && tags == old(tags)
      ensures visibility == old(visibility) && fileType == old(fileType) && currentStep == old(currentStep)
      ensures aiSummary == old(aiSummary) && suggestedTags == old(suggestedTags)
      ensures selectedFile == old(selectedFile)
    {
      TickKeepsRange(uploadProgress);
      uploadProgress := Tick(uploadProgress);
    }

    /** "Next". Leaving the first step generates the summary and the tag
        suggestions; `summaryPick` and `tagPick` are the two random draws. */
    method HandleNext(summaryPick: nat, tagPick: nat)
      requires Valid()
      requires summaryPick < |SummaryChoices| && tagPick < |TagChoices|
      modifies this
      ensures Valid()
      ensures currentStep == NextStep(old(currentStep), old(title), old(content), old(selectedFile).Some?)
      ensures old(currentStep) == 1 && currentStep == 2 ==>
                aiSummary == SummaryChoices[summaryPick] && suggestedTags == TagChoices[tagPick]
      ensures !(old(currentStep) == 1 && currentStep == 2) ==>
                aiSummary == old(aiSummary) && suggestedTags == old(suggestedTags)
      ensures title == old(title) && content == old(content) && tags == old(tags)
      ensures visibility == old(visibility) && fileType == old(fileType)
      ensures uploadProgress == old(uploadProgress) && selectedFile == old(selectedFile)
    {
      if currentStep == 1 && DetailsComplete(title, content, selectedFile.Some?) {
        aiSummary := SummaryChoices[summaryPick];
        suggestedTags := TagChoices[tagPick];
        currentStep := 2;
      } else if currentStep == 2 {
        currentStep := 3;
      }
    }

    /** "Back" on step `to + 1`. */
    method Back(to: int)
      requires Valid() && (to == 1 || to == 2)
      modifies this
      ensures Valid()
      ensures currentStep == to
      ensures title == old(title) && content == old(content) && tags == old(tags)
      ensures visibility == old(visibility) && fileType == old(fileType) && aiSummary == old(aiSummary)
      ensures suggestedTags == old(suggestedTags) && uploadProgress == old(uploadProgress)
      ensures selectedFile == old(selectedFile)
    {
      currentStep := to;
    }

    method ClickSuggestedTag(tag: string)
      modifies this
      ensures tags == AddSuggestedTag(old(tags), tag)
      ensures title == old(title) && content == old(content) && visibility == old(visibility)
      ensures fileType == old(fileType) && currentStep == old(currentStep) && aiSummary == old(aiSummary)
      ensures suggestedTags == old(suggestedTags) && uploadProgress == old(uploadProgress)
      ensures selectedFile == old(selectedFile)
    {
      tags := AddSuggestedTag(tags, tag);
    }

    /** The record the form would publish for `user` now. */
    function Draft(user: User): NewDocument
      reads this
    {
      UploadedDocument(title, content, tags, visibility, fileType, aiSummary, selectedFile, user)
    }

    /** Empties the form, as after a publish. */
    method Clear()
      modifies this
      ensures Valid()
      ensures title == "" && content == "" && tags == "" && visibility == Public && fileType == PlainText
      ensures currentStep == 1 && aiSummary == "" && suggestedTags == []
      ensures uploadProgress == None && selectedFile == None
    {
      title := "";
      content := "";
      tags := "";
      visibility := Public;
      fileType := PlainText;
      currentStep := 1;
      aiSummary := "";
      suggestedTags := [];
      selectedFile := None;
      uploadProgress := None;
    }

    /** "Publish": the record goes to the front of the store's list, with a
        fresh `id` and the time `now`; then the form is emptied. */
    method Submit(store: AppStore, id: string, now: int)
      modifies this, store
      ensures Valid()
      ensures store.documents == [Materialize(old(Draft(store.user)), id, now)] + old(store.documents)
      ensures store.user == old(store.user) && store.authState == old(store.authState)
      ensures store.searchFilters == old(store.searchFilters) && store.selectedDocument == old(store.selectedDocument)
      ensures title == "" && content == "" && tags == "" && visibility == Public && fileType == PlainText
      ensures currentStep == 1 && aiSummary == "" && suggestedTags == []
      ensures uploadProgress == None && selectedFile == None
    {
      store.AddDocument(Draft(store.user), id, now);
      Clear();
    }
  }
}
