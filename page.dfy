/** The application shell: what the page shows for the session, the selected request and the active tab. */
module Page {
  import opened Wrappers
  import opened Domain
  import MainLayout
  import UserManagement

  /** The page's content. */
  datatype Screen =
    | LoadingScreen
    | LoginScreen
    | DetailsScreen(request: Request)
    | DashboardScreen(role: Role, currentUserId: string)
    | RequestFormScreen
    | DocumentsScreen
    | ActivityScreen(role: Role)
    | UsersScreen(currentUser: User)

  /** The tab ids `renderContent` has a case for. */
  const KnownTabs: set<string> := {"dashboard", "create-request", "documents", "activity", "users"}

  /**
   * `AppContent` with `renderContent`: the spinner while the session loads, then the login page without a
   * user; a selected request shows its details whatever the tab; otherwise the active tab's component, and
   * the dashboard for a tab it does not know.
   */
  function Render(isLoading: bool, user: Option<User>, selected: Option<Request>, activeTab: string): (screen: Screen)
    ensures isLoading ==> screen == LoadingScreen
    ensures !isLoading && user.None? ==> screen == LoginScreen
    ensures !isLoading && user.Some? && selected.Some? ==> screen == DetailsScreen(selected.value)
    ensures !isLoading && user.Some? && selected.None? && activeTab !in KnownTabs ==>
      screen == DashboardScreen(user.value.role, user.value.id)
    ensures !isLoading && user.Some? && selected.None? && activeTab == "dashboard" ==>
      screen == DashboardScreen(user.value.role, user.value.id)
    ensures !isLoading && user.Some? && selected.None? && activeTab == "create-request" ==> screen == RequestFormScreen
    ensures !isLoading && user.Some? && selected.None? && activeTab == "documents" ==> screen == DocumentsScreen
    ensures !isLoading && user.Some? && selected.None? && activeTab == "activity" ==> screen == ActivityScreen(user.value.role)
    ensures !isLoading && user.Some? && selected.None? && activeTab == "users" ==> screen == UsersScreen(user.value)
    ensures screen.UsersScreen? ==> activeTab == "users"
  {
    if isLoading then LoadingScreen
    else if user.None? then LoginScreen
    else if selected.Some? then DetailsScreen(selected.value)
    else
      var u := user.value;
      match activeTab
      case "dashboard" => DashboardScreen(u.role, u.id)
      case "create-request" => RequestFormScreen
      case "documents" => DocumentsScreen
      case "activity" => ActivityScreen(u.role)
      case "users" => UsersScreen(u)
      case _ => DashboardScreen(u.role, u.id)
  }

  /** Every tab the layout offers has its own case; none falls through to the default. */
  lemma OfferedTabsAreKnown(role: Role, i: int)
    requires 0 <= i < |MainLayout.Tabs(role)|
    ensures MainLayout.Tabs(role)[i].id in KnownTabs
  {
    var tabs := MainLayout.Tabs(role);
    assert tabs[..4] == MainLayout.CommonTabs;
    if i < 4 {
      assert tabs[i] == MainLayout.CommonTabs[i];
    } else {
      assert tabs[i] == MainLayout.UsersTab;
    }
  }

  /**
   * A logistician is kept out of user management twice over: the layout offers no users tab, and should
   * the tab be active all the same, the component renders the access-denied card.
   */
  lemma LogisticianCannotManageUsers(u: User, users: seq<User>, selected: Option<Request>, activeTab: string)
    requires u.role == Logistician
    ensures MainLayout.UsersTab !in MainLayout.Tabs(u.role)
    ensures Render(false, Some(u), selected, activeTab).UsersScreen? ==>
      UserManagement.Render(Render(false, Some(u), selected, activeTab).currentUser, users).AccessDenied?
  {
  }

  /** The shell's state. The request list starts from the sample data, passed in here. */
  class App {
    var activeTab: string
    var selectedRequest: Option<Request>
    var requests: seq<Request>

    constructor(sampleRequests: seq<Request>)
      ensures activeTab == "dashboard" && selectedRequest.None? && requests == sampleRequests
    {
      activeTab := "dashboard";
      selectedRequest := None;
      requests := sampleRequests;
    }

    /**
     * `updateRequestStatus`: the shell's own list gets the new status. The shell hands it to the details page
     * only, which never calls it, and nothing renders this list; were it called, the selected request, a copy
     * taken on click, would be left as it was.
     */
    method UpdateRequestStatus(requestId: string, newStatus: Status)
      modifies this`requests
      ensures requests == SetStatus(old(requests), requestId, newStatus)
      ensures selectedRequest == old(selectedRequest)
    {
      requests := SetStatus(requests, requestId, newStatus);
    }

    /** `handleRequestClick`: the clicked request is selected. */
    method HandleRequestClick(request: Request)
      modifies this`selectedRequest
      ensures selectedRequest == Some(request)
    {
      selectedRequest := Some(request);
    }

    /** `handleBackFromDetails`: the selection is cleared. */
    method HandleBackFromDetails()
      modifies this`selectedRequest
      ensures selectedRequest.None?
    {
      selectedRequest := None;
    }

    /** The layout's `onTabChange`. The selection is kept, so details stay on screen until "back". */
    method SetActiveTab(tab: string)
      modifies this`activeTab
      ensures activeTab == tab && selectedRequest == old(selectedRequest)
    {
      activeTab := tab;
    }
  }

  /** Clicking a request and then going back returns the signed-in user to the tab they were on. */
  method ClickThenBack(app: App, user: User, r: Request) returns (during: Screen, after: Screen)
    requires app.selectedRequest.None?
    modifies app
    ensures during == DetailsScreen(r)
    ensures after == Render(false, Some(user), None, old(app.activeTab))
  {
    app.HandleRequestClick(r);
    during := Render(false, Some(user), app.selectedRequest, app.activeTab);
    app.HandleBackFromDetails();
    after := Render(false, Some(user), app.selectedRequest, app.activeTab);
  }

  /**
   * The shell's status update reaches neither the selection nor the screen: with a request selected, the
   * details screen shows it as clicked, whatever status the update wrote into the shell's list.
   */
  method StatusUpdateKeepsSelection(app: App, user: User, r: Request, newStatus: Status) returns (shown: Screen)
    modifies app
    ensures shown == DetailsScreen(r)
    ensures newStatus != r.status ==> shown.request.status != newStatus
  {
    app.HandleRequestClick(r);
    app.UpdateRequestStatus(r.id, newStatus);
    shown := Render(false, Some(user), app.selectedRequest, app.activeTab);
  }
}
