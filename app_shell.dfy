/** The application shell: which screen is shown, and the two ways the
    active view changes. */
module AppShell {
  import opened Types
  import opened Store

  datatype Screen =
    | LoginScreen
    | ViewerScreen
    | DashboardScreen
    | UploadScreen
    | DocumentsScreen
    | QuickStartScreen
    | SearchScreen
    | CommunityScreen

  /** The screen for a view name; an unknown name shows the dashboard. */
  function ScreenForView(view: string): Screen
  {
    if view == "dashboard" then DashboardScreen
    else if view == "upload" then UploadScreen
    else if view == "documents" then DocumentsScreen
    else if view == "quickstart" then QuickStartScreen
    else if view == "search" then SearchScreen
    else if view == "community" then CommunityScreen
    else DashboardScreen
  }

  /** The sign-in page first, then a selected document, then the view. */
  function RenderView(authenticated: bool, selected: Option<Document>, view: string): Screen
  {
    if !authenticated then LoginScreen
    else if selected.Some? then ViewerScreen
    else ScreenForView(view)
  }

  /** Signed out, the sign-in page is all there is; signed in, a selection
      always wins over the view; and the screen never is the sign-in page
      for a signed-in user. */
  lemma RenderViewPriorities(authenticated: bool, selected: Option<Document>, view: string)
    ensures RenderView(authenticated, selected, view) == LoginScreen <==> !authenticated
    ensures authenticated && selected.Some? ==> RenderView(authenticated, selected, view) == ViewerScreen
    ensures RenderView(authenticated, selected, view) == ViewerScreen <==> authenticated && selected.Some?
    ensures authenticated && selected.None? ==> RenderView(authenticated, selected, view) == ScreenForView(view)
  {
  }

  /** The six named views reach six different screens; every other name,
      "analytics" among them, shows the dashboard. */
  lemma KnownViews(view: string)
    ensures ScreenForView("upload") == UploadScreen && ScreenForView("documents") == DocumentsScreen
    ensures ScreenForView("quickstart") == QuickStartScreen && ScreenForView("search") == SearchScreen
    ensures ScreenForView("community") == CommunityScreen
    ensures ScreenForView("analytics") == DashboardScreen
    ensures ScreenForView(view) == DashboardScreen <==>
              view !in {"upload", "documents", "quickstart", "search", "community"}
    ensures ScreenForView(view) != LoginScreen && ScreenForView(view) != ViewerScreen
  {
  }

  /** The shell's own state. */
  class Shell {
    var activeView: string

    constructor ()
      ensures activeView == "dashboard"
    {
      activeView := "dashboard";
    }

    function Current(store: AppStore): Screen
      reads this, store
    {
      RenderView(store.user.isAuthenticated, store.selectedDocument, activeView)
    }

    /** A sidebar entry: the view changes and the selection is cleared, so
        the chosen view is what is shown. */
    method HandleViewChange(store: AppStore, view: string)
      modifies this, store
      ensures activeView == view && store.selectedDocument == None
      ensures store.user.isAuthenticated ==> Current(store) == ScreenForView(view)
      ensures store.documents == old(store.documents) && store.user == old(store.user)
      ensures store.searchFilters == old(store.searchFilters) && store.authState == old(store.authState)
    {
      activeView := view;
      store.SetSelectedDocument(None);
    }

    /** The header's upload button: the view changes but the selection does
        not, so an open document stays in front. */
    method HandleUploadClick(store: AppStore)
      modifies this
      ensures activeView == "upload"
      ensures store.selectedDocument.Some? && store.user.isAuthenticated ==> Current(store) == ViewerScreen
      ensures store.selectedDocument.None? && store.user.isAuthenticated ==> Current(store) == UploadScreen
    {
      activeView := "upload";
    }
  }
}
