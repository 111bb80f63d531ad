/**
  The application shell (`App.jsx`): which user is signed in, reconciled from the persisted
  manual-login flags, the auth listener and the `manualUserLogin` event; the session list;
  the selected session; and the sidebar's open state. The logout page's clearing of the
  flags (`Logout.jsx`) acts on the same persisted state.
 */
module App {
  import opened Wrappers
  import Sidebar
  import Gatekeeper

  const DesktopWidth: int := 1024

  /** A signed-in user: from the auth listener, or a manual (user-id) login. */
  datatype User = User(uid: string, displayName: Option<string>, isManualUser: bool)

  /** The user restored from a persisted manual login: "User " and the first five characters of the id. */
  function ManualUser(id: string): (u: User)
    ensures u.uid == id && u.isManualUser
    ensures u.displayName.Some? && |u.displayName.value| == 8 + (if |id| < 5 then |id| else 5)
    ensures u.displayName.value[..5] == "User " && u.displayName.value[|u.displayName.value| - 3..] == "..."
    ensures u.displayName.value[5..|u.displayName.value| - 3] == (if |id| < 5 then id else id[..5])
  {
    var shown := if |id| < 5 then id else id[..5];
    User(id, Some("User " + shown + "..."), true)
  }

  /** `fetchSessions` as one step: the fetched list, or empty when the fetch fails. */
  function FetchedOrEmpty(fetched: Option<seq<Sidebar.SessionSummary>>): (sessions: seq<Sidebar.SessionSummary>)
    ensures fetched.Some? ==> sessions == fetched.value
    ensures fetched.None? ==> sessions == []
  {
    fetched.GetOr([])
  }

  /**
    The history path segment the shell requests: `fetchSessions` hands the whole user object
    to `getSessionHistory(userId)`, which interpolates it into `/history/${userId}`.
   */
  const UserObjectPath: string := "[object Object]"

  /**
    `getSessionHistory`'s handling of the answer: a status outside 200-299 throws (`None`);
    a success yields the body's `sessions`, each read by `parse`, or `[]` when it has none.
   */
  function HistoryResult(r: Gatekeeper.Response, parse: Gatekeeper.Document -> Sidebar.SessionSummary)
    : (fetched: Option<seq<Sidebar.SessionSummary>>)
    ensures fetched.Some? <==> 200 <= r.status < 300
    ensures fetched.Some? && r.body.SessionsBody? ==>
      |fetched.value| == |r.body.sessions| &&
      forall i :: 0 <= i < |fetched.value| ==> fetched.value[i] == parse(r.body.sessions[i])
    ensures fetched.Some? && !r.body.SessionsBody? ==> fetched.value == []
  {
    if !(200 <= r.status < 300) then None
    else if r.body.SessionsBody? then
      Some(seq(|r.body.sessions|, i requires 0 <= i < |r.body.sessions| => parse(r.body.sessions[i])))
    else Some([])
  }

  /**
    As wired, a signed-in user's history request names `[object Object]` instead of the
    uid, the backend answers 403, and the session list ends up empty, whatever the store holds.
   */
  lemma SessionHistoryAsWiredForbidden(uid: string, headers: Gatekeeper.Headers, auth: Gatekeeper.AuthServices,
                                       store: Gatekeeper.Store, parse: Gatekeeper.Document -> Sidebar.SessionSummary)
    requires Gatekeeper.CheckAuth(headers, auth) == Ok(uid) && uid != UserObjectPath
    ensures Gatekeeper.HistoryRequest(headers, UserObjectPath, auth, store).status == 403
    ensures FetchedOrEmpty(HistoryResult(Gatekeeper.HistoryRequest(headers, UserObjectPath, auth, store), parse)) == []
  {
  }

  /** Requested under the verified uid, the history is the store's session list, in order. */
  lemma SessionHistoryForOwnUid(uid: string, headers: Gatekeeper.Headers, auth: Gatekeeper.AuthServices,
                                store: Gatekeeper.Store, parse: Gatekeeper.Document -> Sidebar.SessionSummary)
    requires Gatekeeper.CheckAuth(headers, auth) == Ok(uid) && store.allSessions(uid).Some?
    ensures var sessions := FetchedOrEmpty(HistoryResult(Gatekeeper.HistoryRequest(headers, uid, auth, store), parse));
      |sessions| == |store.allSessions(uid).value| &&
      forall i :: 0 <= i < |sessions| ==> sessions[i] == parse(store.allSessions(uid).value[i])
  {
  }

  /** A localStorage value is truthy: present and non-empty. */
  predicate Truthy(item: Option<string>) {
    item.Some? && item.value != []
  }

  /** The persisted flags say a manual user is signed in. */
  predicate ManualSessionPersisted(customUserID: Option<string>, isManualUser: Option<string>) {
    Truthy(customUserID) && isManualUser == Some("true")
  }

  class AppState {
    var user: Option<User>
    var loading: bool
    var sessions: seq<Sidebar.SessionSummary>
    var currentSessionId: Option<string>
    var sidebarOpen: bool
    /** `window.innerWidth`. */
    var width: int
    /** The localStorage items `customUserID` and `isManualUser`. */
    var customUserID: Option<string>
    var isManualUser: Option<string>

    /**
      Mounting: the initial state, then the load-time check of the persisted manual login,
      which restores the manual user, fetches sessions and ends loading. `fetch` is
      `getSessionHistory` keyed by the path segment it requests; the shell passes the user
      object, so the segment is `UserObjectPath`.
     */
    constructor (width: int, customUserID: Option<string>, isManualUser: Option<string>,
                 fetch: string -> Option<seq<Sidebar.SessionSummary>>)
      ensures this.width == width && this.customUserID == customUserID && this.isManualUser == isManualUser
      ensures currentSessionId.None? && sidebarOpen == (width >= DesktopWidth)
      ensures ManualSessionPersisted(customUserID, isManualUser) ==>
        && user == Some(ManualUser(customUserID.value))
        && sessions == FetchedOrEmpty(fetch(UserObjectPath))
        && !loading
      ensures !ManualSessionPersisted(customUserID, isManualUser) ==> user.None? && sessions == [] && loading
    {
      this.width := width;
      this.customUserID := customUserID;
      this.isManualUser := isManualUser;
      user := None;
      loading := true;
      sessions := [];
      currentSessionId := None;
      sidebarOpen := width >= DesktopWidth;
      if ManualSessionPersisted(customUserID, isManualUser) {
        var manual := ManualUser(customUserID.value);
        user := Some(manual);
        sessions := FetchedOrEmpty(fetch(UserObjectPath));
        loading := false;
      }
    }

    /**
      The auth listener: ignored while `isManualUser` holds any non-empty string; otherwise
      the event's user (even none) is taken, its sessions fetched when there is one, and
      loading ends.
     */
    method OnAuthStateChanged(u: Option<User>, fetch: string -> Option<seq<Sidebar.SessionSummary>>)
      modifies this
      ensures Truthy(old(isManualUser)) ==>
        user == old(user) && loading == old(loading) && sessions == old(sessions)
      ensures !Truthy(old(isManualUser)) ==>
        && user == u
        && !loading
        && sessions == (if u.Some? then FetchedOrEmpty(fetch(UserObjectPath)) else old(sessions))
      ensures currentSessionId == old(currentSessionId) && sidebarOpen == old(sidebarOpen) && width == old(width)
      ensures customUserID == old(customUserID) && isManualUser == old(isManualUser)
    {
      if !Truthy(isManualUser) {
        user := u;
        if u.Some? {
          sessions := FetchedOrEmpty(fetch(UserObjectPath));
        }
        loading := false;
      }
    }

    /** The `manualUserLogin` event: always takes the event's user, whatever the flags say. */
    method OnManualUserLogin(u: User, fetch: string -> Option<seq<Sidebar.SessionSummary>>)
      modifies this
      ensures user == Some(u) && !loading && sessions == FetchedOrEmpty(fetch(UserObjectPath))
      ensures currentSessionId == old(currentSessionId) && sidebarOpen == old(sidebarOpen) && width == old(width)
      ensures customUserID == old(customUserID) && isManualUser == old(isManualUser)
    {
      user := Some(u);
      sessions := FetchedOrEmpty(fetch(UserObjectPath));
      loading := false;
    }

    /** The evident intent of `fetchSessions`: request the history under the user's uid. */
    method FetchSessions(u: User, fetch: string -> Option<seq<Sidebar.SessionSummary>>)
      modifies this
      ensures sessions == FetchedOrEmpty(fetch(u.uid))
      ensures user == old(user) && loading == old(loading)
      ensures currentSessionId == old(currentSessionId) && sidebarOpen == old(sidebarOpen) && width == old(width)
      ensures customUserID == old(customUserID) && isManualUser == old(isManualUser)
    {
      sessions := FetchedOrEmpty(fetch(u.uid));
    }

    /** The logout page removes the persisted manual-login items. */
    method Logout()
      modifies this
      ensures customUserID.None? && isManualUser.None?
      ensures user == old(user) && loading == old(loading) && sessions == old(sessions)
      ensures currentSessionId == old(currentSessionId) && sidebarOpen == old(sidebarOpen) && width == old(width)
    {
      customUserID := None;
      isManualUser := None;
    }

    method ToggleSidebar()
      modifies this
      ensures sidebarOpen == !old(sidebarOpen)
      ensures user == old(user) && loading == old(loading) && sessions == old(sessions)
      ensures currentSessionId == old(currentSessionId) && width == old(width)
      ensures customUserID == old(customUserID) && isManualUser == old(isManualUser)
    {
      sidebarOpen := !sidebarOpen;
    }

    /** The sidebar's own close button. */
    method CloseSidebar()
      modifies this
      ensures !sidebarOpen
      ensures user == old(user) && loading == old(loading) && sessions == old(sessions)
      ensures currentSessionId == old(currentSessionId) && width == old(width)
      ensures customUserID == old(customUserID) && isManualUser == old(isManualUser)
    {
      sidebarOpen := false;
    }

    /** A window resize: the sidebar is open exactly on desktop widths. */
    method Resize(newWidth: int)
      modifies this
      ensures width == newWidth && sidebarOpen == (newWidth >= DesktopWidth)
      ensures user == old(user) && loading == old(loading) && sessions == old(sessions)
      ensures currentSessionId == old(currentSessionId)
      ensures customUserID == old(customUserID) && isManualUser == old(isManualUser)
    {
      width := newWidth;
      sidebarOpen := newWidth >= DesktopWidth;
    }

    /** Deselects the session; on a narrow window the sidebar closes. */
    method StartNewChat()
      modifies this
      ensures currentSessionId.None?
      ensures sidebarOpen == (old(sidebarOpen) && old(width) >= DesktopWidth)
      ensures user == old(user) && loading == old(loading) && sessions == old(sessions) && width == old(width)
      ensures customUserID == old(customUserID) && isManualUser == old(isManualUser)
    {
      currentSessionId := None;
      if width < DesktopWidth {
        sidebarOpen := false;
      }
    }

    /** Selects session `id`; on a narrow window the sidebar closes. */
    method SelectChat(id: string)
      modifies this
      ensures currentSessionId == Some(id)
      ensures sidebarOpen == (old(sidebarOpen) && old(width) >= DesktopWidth)
      ensures user == old(user) && loading == old(loading) && sessions == old(sessions) && width == old(width)
      ensures customUserID == old(customUserID) && isManualUser == old(isManualUser)
    {
      currentSessionId := Some(id);
      if width < DesktopWidth {
        sidebarOpen := false;
      }
    }

    /**
      The sidebar as the shell renders it: the session list is passed, the selected session
      is not, so no row is ever marked active.
     */
    function SidebarAsWired(now: int, localeDate: int -> string): (v: Sidebar.ListView)
      reads this
      ensures !v.Loading?
      ensures v.Rows? ==> |v.rows| == |sessions| && forall i :: 0 <= i < |v.rows| ==> !v.rows[i].active
    {
      Sidebar.NoCurrentNoActive(sessions, now, localeDate);
      Sidebar.View(Some(sessions), None, now, localeDate)
    }

    /** The evident intent: pass the selected session, so its row is the active one. */
    function SidebarView(now: int, localeDate: int -> string): (v: Sidebar.ListView)
      reads this
      ensures !v.Loading?
      ensures v.NoConversations? <==> sessions == []
      ensures v.Rows? ==> |v.rows| == |sessions| && forall i :: 0 <= i < |v.rows| ==>
        (v.rows[i].active <==> currentSessionId == Some(sessions[i].sessionId))
    {
      Sidebar.View(Some(sessions), currentSessionId, now, localeDate)
    }
  }

  /**
    After the user picks the first listed session, the wired sidebar highlights nothing
    while the corrected one highlights that row.
   */
  method SelectedSessionNotHighlighted(first: Sidebar.SessionSummary, now: int, localeDate: int -> string)
    returns (asWired: Sidebar.ListView, corrected: Sidebar.ListView)
    ensures asWired.Rows? && |asWired.rows| == 1 && !asWired.rows[0].active
    ensures corrected.Rows? && |corrected.rows| == 1 && corrected.rows[0].active
  {
    var app := new AppState(DesktopWidth, Some("abc123"), Some("true"), _ => Some([first]));
    app.SelectChat(first.sessionId);
    asWired := app.SidebarAsWired(now, localeDate);
    corrected := app.SidebarView(now, localeDate);
  }

  /**
    A persisted manual login survives auth events, even one reporting no user, until the
    logout page clears the flags; the next auth event then signs the user out.
   */
  method ManualFlagOutlivesAuthEvents(id: string, fetch: string -> Option<seq<Sidebar.SessionSummary>>)
    returns (beforeLogout: Option<User>, afterLogout: Option<User>)
    requires id != []
    ensures beforeLogout == Some(ManualUser(id))
    ensures afterLogout.None?
  {
    var app := new AppState(DesktopWidth, Some(id), Some("true"), fetch);
    app.OnAuthStateChanged(None, fetch);
    beforeLogout := app.user;
    app.Logout();
    app.OnAuthStateChanged(None, fetch);
    afterLogout := app.user;
  }

  /**
    A signed-in user whose token the backend accepts: the sign-in event leaves the sidebar's
    list empty, while fetching under the uid yields every stored session.
   */
  method SignedInSessionsLost(u: User, headers: Gatekeeper.Headers, auth: Gatekeeper.AuthServices,
                              store: Gatekeeper.Store, parse: Gatekeeper.Document -> Sidebar.SessionSummary)
    returns (asWired: seq<Sidebar.SessionSummary>, corrected: seq<Sidebar.SessionSummary>)
    requires Gatekeeper.CheckAuth(headers, auth) == Ok(u.uid) && u.uid != UserObjectPath
    requires store.allSessions(u.uid).Some?
    ensures asWired == []
    ensures |corrected| == |store.allSessions(u.uid).value|
    ensures forall i :: 0 <= i < |corrected| ==> corrected[i] == parse(store.allSessions(u.uid).value[i])
  {
    var fetch := path => HistoryResult(Gatekeeper.HistoryRequest(headers, path, auth, store), parse);
    var app := new AppState(DesktopWidth, None, None, fetch);
    app.OnAuthStateChanged(Some(u), fetch);
    SessionHistoryAsWiredForbidden(u.uid, headers, auth, store, parse);
    asWired := app.sessions;
    app.FetchSessions(u, fetch);
    SessionHistoryForOwnUid(u.uid, headers, auth, store, parse);
    corrected := app.sessions;
  }
}
