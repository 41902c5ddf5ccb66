/** The records of the knowledge portal: documents with their comments, users,
    the activity log, the session's search filters and an upload's progress. */
module Types {

  datatype Option<+T> = None | Some(value: T) {
    function GetOr(default: T): T
    {
      match this
      case Some(v) => v
      case None => default
    }
  }

  datatype Visibility = Private | Group | Public

  /** The string a visibility is stored and compared as. */
  function VisibilityName(v: Visibility): string
  {
    match v
    case Private => "private"
    case Group => "group"
    case Public => "public"
  }

  datatype FileType = Doc | Pdf | Image | PlainText

  function FileTypeName(f: FileType): string
  {
    match f
    case Doc => "doc"
    case Pdf => "pdf"
    case Image => "image"
    case PlainText => "text"
  }

  datatype Reaction = Reaction(emoji: string, users: seq<string>)

  datatype Comment = Comment(
    id: string,
    author: string,
    authorId: string,
    content: string,
    createdAt: int,
    reactions: seq<Reaction>)

  /** A document. Timestamps are milliseconds since the epoch; `rating` is the
      running mean of the `totalRatings` ratings submitted so far. */
  datatype Document = Document(
    id: string,
    title: string,
    content: string,
    summary: string,
    tags: seq<string>,
    author: string,
    authorId: string,
    createdAt: int,
    updatedAt: int,
    visibility: Visibility,
    rating: real,
    totalRatings: nat,
    views: nat,
    fileType: Option<FileType>,
    fileName: Option<string>,
    fileSize: Option<nat>,
    department: string,
    comments: seq<Comment>)

  datatype Badge = Badge(id: string, name: string, icon: string, color: string)

  datatype User = User(
    id: string,
    name: string,
    email: string,
    avatar: string,
    role: string,
    department: string,
    isAuthenticated: bool,
    permissions: seq<string>,
    badges: seq<Badge>)

  datatype ActivityType = Upload | View | Rate | CommentOn | Share

  datatype Activity = Activity(
    id: string,
    userId: string,
    user: string,
    action: string,
    target: string,
    targetId: string,
    timestamp: int,
    activityType: ActivityType)

  datatype AuthState = AuthState(isLoading: bool, error: Option<string>)

  datatype DateRange = DateRange(from: Option<string>, to: Option<string>)

  /** The session's search filters; an empty string means "no constraint". */
  datatype SearchFilters = SearchFilters(
    query: string,
    tags: seq<string>,
    dateRange: DateRange,
    department: string,
    visibility: string,
    fileType: string)

  const DefaultFilters: SearchFilters :=
    SearchFilters("", [], DateRange(None, None), "", "", "")

  datatype UploadStatus = Uploading | Processing | Completed | Failed

  datatype UploadProgress = UploadProgress(
    fileName: string,
    progress: int,
    status: UploadStatus,
    error: Option<string>)
}
