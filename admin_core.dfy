// The shell every admin page shares (public/js/admin-core.js): the sidebar badges,
// their refresh timers, the login guard, logout, the sidebar highlight and the
// redirect after an unauthorised request.
module AdminCore {
  import opened Js
  import opened Lists
  import opened Data

  const LoginPage: string := "admin-login.html"
  const DashboardPage: string := "admin-dashboard.html"
  const InitialRefreshDelayMs: nat := 500
  const BackgroundRefreshMs: nat := 30000

  // ---------------------------------------------------------------- badges

  /** A badge after an update: showing a count, hidden, left as it was, or left as it
      was because the update threw. */
  datatype Badge = Showing(count: nat) | Hidden | Untouched | Broken

  /** `!['delivered', 'cancelled'].includes(o.status)`. */
  predicate IsActive(o: Value) {
    !Includes([Str("delivered"), Str("cancelled")], Get(o, "status"))
  }

  /** The number of orders still to be handled. */
  function ActiveCount(orders: seq<Value>): nat {
    |Filter(orders, IsActive)|
  }

  /** The count covers the orders outside `delivered` and `cancelled`: it is the whole
      list exactly when none is finished, and zero exactly when all are. */
  lemma ActiveCountMeaning(orders: seq<Value>)
    ensures ActiveCount(orders) <= |orders|
    ensures ActiveCount(orders) == |orders| <==>
      forall i :: 0 <= i < |orders| ==> Get(orders[i], "status") != Str("delivered") && Get(orders[i], "status") != Str("cancelled")
    ensures ActiveCount(orders) == 0 <==>
      forall i :: 0 <= i < |orders| ==> Get(orders[i], "status") == Str("delivered") || Get(orders[i], "status") == Str("cancelled")
  {
    FilterLength(orders, IsActive);
  }

  /** A counting badge shows a positive count and is hidden at zero. */
  function CountBadge(count: nat): (b: Badge)
    ensures b.Showing? <==> count > 0
    ensures b.Showing? ==> b.count == count
    ensures !b.Showing? ==> b == Hidden
  {
    if count > 0 then Showing(count) else Hidden
  }

  /** `o.rating > 0`. */
  predicate Rated(o: Value) {
    Greater(Get(o, "rating"), Num(0.0))
  }

  /** `seenIds.includes(o.id.toString())`; `None` when the seen list has no `includes`. */
  function Seen(seenIds: Value, o: Value): Option<bool> {
    var id := ToJsString(Get(o, "id"));
    if seenIds.Arr? then Some(Includes(seenIds.items, Str(id)))
    else if seenIds.Str? then Some(Contains(seenIds.s, id))
    else None
  }

  /** The seen list as read from storage: unreadable JSON counts as an empty list. */
  function SeenIds(st: Storage): Value {
    var r := ReadJson(st, "seenRatingIds", Arr([]));
    if r.Some? then r.value else Arr([])
  }

  /** The ratings not yet looked at, or `None` when the check throws. */
  function NewRatings(rated: seq<Value>, seenIds: Value): Option<seq<Value>> {
    if rated == [] then Some([])
    else
      match (Seen(seenIds, rated[0]), NewRatings(rated[1..], seenIds))
      case (Some(seen), Some(rest)) => Some((if seen then [] else [rated[0]]) + rest)
      case _ => None
  }

  /** With a list of seen ids, the new ratings are the rated orders whose id text is
      not in that list. */
  lemma {:induction false} NewRatingsMembers(rated: seq<Value>, seenIds: Value)
    requires seenIds.Arr?
    ensures NewRatings(rated, seenIds).Some?
    ensures forall o :: o in NewRatings(rated, seenIds).value <==>
      o in rated && Str(ToJsString(Get(o, "id"))) !in seenIds.items
  {
    if rated != [] {
      NewRatingsMembers(rated[1..], seenIds);
      assert rated == [rated[0]] + rated[1..];
    }
  }

  /** An empty seen list marks every rated order as new. */
  lemma {:induction false} NothingSeen(rated: seq<Value>)
    ensures NewRatings(rated, Arr([])) == Some(rated)
  {
    if rated != [] {
      NothingSeen(rated[1..]);
      assert rated == [rated[0]] + rated[1..];
    }
  }

  /** The ratings badge: untouched while no order is rated; otherwise a count of the
      new ratings (or a thrown error when the seen list cannot be searched). */
  function RatingsBadge(orders: seq<Value>, st: Storage): Badge {
    var rated := Filter(orders, Rated);
    if |rated| == 0 then Untouched
    else
      match NewRatings(rated, SeenIds(st))
      case None => Broken
      case Some(unseen) => CountBadge(|unseen|)
  }

  /** No rated order leaves the ratings badge alone; an unreadable or absent seen list
      makes every rated order count. */
  lemma RatingsBadgeCases(orders: seq<Value>, st: Storage)
    ensures (forall i :: 0 <= i < |orders| ==> !Rated(orders[i])) <==> RatingsBadge(orders, st) == Untouched
    ensures ("seenRatingIds" !in st || st["seenRatingIds"].Malformed?) ==>
      var n := |Filter(orders, Rated)|;
      RatingsBadge(orders, st) == (if n == 0 then Untouched else Showing(n))
  {
    FilterLength(orders, Rated);
    NothingSeen(Filter(orders, Rated));
  }

  /** The timers `startBadgeUpdates()` sets: a one-off `refreshOrders()` half a second
      later (it runs only if no orders are held then, see `InitialRefreshRuns`), and a
      30-second refresh except on the orders and dashboard pages. */
  function BadgeTimers(pathname: string): (r: seq<Timer>)
    ensures |r| >= 1 && r[0] == Timer(InitialRefreshDelayMs, false, Refresh)
    ensures |r| == 2 <==> !Contains(pathname, "admin-orders.html") && !Contains(pathname, "admin-dashboard.html")
  {
    [Timer(InitialRefreshDelayMs, false, Refresh)]
    + (if Contains(pathname, "admin-orders.html") || Contains(pathname, "admin-dashboard.html") then []
       else [Timer(BackgroundRefreshMs, true, Refresh)])
  }

  /** `getOrders().length === 0` when the half-second timer fires. */
  predicate InitialRefreshRuns(held: Value) {
    LengthIsZero(held)
  }

  // ---------------------------------------------------------------- navigation

  /** Where the shell sends the browser. */
  datatype Navigation = Replace(url: string) | Assign(url: string)

  /** `checkLogin()`: `loggedIn` is `sessionStorage.getItem('adminLoggedIn')`. */
  function LoginRedirect(loggedIn: Option<string>, href: string): Option<Navigation> {
    var isLoggedIn := loggedIn.Some? && loggedIn.value != "";
    var isLoginPage := Contains(href, LoginPage);
    if !isLoggedIn && !isLoginPage then Some(Replace(LoginPage))
    else if isLoggedIn && isLoginPage then Some(Replace(DashboardPage))
    else None
  }

  /** The guard sends a visitor without the flag to the login page, a logged-in user
      away from it to the dashboard, and leaves everyone else where they are. */
  lemma LoginRedirectCases(loggedIn: Option<string>, href: string)
    ensures var isLoggedIn := loggedIn.Some? && loggedIn.value != "";
      && (LoginRedirect(loggedIn, href) == Some(Replace(LoginPage)) <==> !isLoggedIn && !Contains(href, LoginPage))
      && (LoginRedirect(loggedIn, href) == Some(Replace(DashboardPage)) <==> isLoggedIn && Contains(href, LoginPage))
      && (LoginRedirect(loggedIn, href) == None <==> (isLoggedIn <==> !Contains(href, LoginPage)))
  {
  }

  /** The sidebar entries in the order they are searched. */
  const NavItems: seq<(string, string)> := [
    ("admin-dashboard.html", "nav-dashboard"),
    ("admin-orders.html", "nav-orders"),
    ("admin-meals.html", "nav-meals"),
    ("admin-categories.html", "nav-categories"),
    ("admin-ratings.html", "nav-ratings"),
    ("admin-settings.html", "nav-settings")]

  /** `Object.keys(navItems).find(key => path.includes(key))`, as a position in the table. */
  function FirstPageMatch(path: string, table: seq<(string, string)>): (k: int)
    ensures -1 <= k < |table|
    ensures k >= 0 ==> Contains(path, table[k].0) && forall j :: 0 <= j < k ==> !Contains(path, table[j].0)
    ensures k == -1 <==> forall j :: 0 <= j < |table| ==> !Contains(path, table[j].0)
  {
    if table == [] then -1
    else if Contains(path, table[0].0) then 0
    else var k := FirstPageMatch(path, table[1..]); if k == -1 then -1 else k + 1
  }

  /** The highlight `highlightSidebar()` picks: the dashboard for a path ending in
      `admin.html` (added beside any other highlight), else the entry of the first
      page name the path contains (replacing the others), else none. */
  datatype Highlight = AddDashboard | Only(navId: string) | NoHighlight

  function SidebarTarget(path: string): Highlight {
    if EndsWith(path, "admin.html") then AddDashboard
    else
      var k := FirstPageMatch(path, NavItems);
      if k == -1 then NoHighlight else Only(NavItems[k].1)
  }

  /** A path ending in `admin.html` always means the dashboard; otherwise the entry is
      the one of the earliest page name in the table that the path contains, and there is
      none exactly when it contains no page name. */
  lemma SidebarTargetMeaning(path: string)
    ensures EndsWith(path, "admin.html") ==> SidebarTarget(path) == AddDashboard
    ensures !EndsWith(path, "admin.html") ==>
      (SidebarTarget(path) == NoHighlight <==> forall j :: 0 <= j < |NavItems| ==> !Contains(path, NavItems[j].0))
    ensures !EndsWith(path, "admin.html") && SidebarTarget(path) != NoHighlight ==>
      exists k :: 0 <= k < |NavItems| && SidebarTarget(path) == Only(NavItems[k].1)
        && Contains(path, NavItems[k].0) && forall j :: 0 <= j < k ==> !Contains(path, NavItems[j].0)
  {
    if !EndsWith(path, "admin.html") {
      var k := FirstPageMatch(path, NavItems);
      if k != -1 {
        assert SidebarTarget(path) == Only(NavItems[k].1);
      }
    }
  }

  /** The reason of an unhandled rejection is a 401 answer. */
  predicate Unauthorized(reason: Value) {
    Truthy(reason) && StrictEq(Get(reason, "status"), Num(401.0))
  }

  /** The browser state the shell reads and changes. */
  class AdminShell {
    /** `sessionStorage`. */
    var session: map<string, string>
    var href: string
    var pathname: string
    /** Navigations requested, in order. */
    var navigations: seq<Navigation>
    /** The sidebar entries marked active. */
    var activeNav: set<string>
    /** The ids of the elements present on the page. */
    const present: set<string>

    constructor (session: map<string, string>, href: string, pathname: string, present: set<string>)
      ensures this.session == session && this.href == href && this.pathname == pathname
      ensures this.present == present && navigations == [] && activeNav == {}
    {
      this.session, this.href, this.pathname := session, href, pathname;
      this.present := present;
      navigations, activeNav := [], {};
    }

    /** `sessionStorage.getItem('adminLoggedIn')`. */
    function LoggedIn(): Option<string>
      reads this
    {
      if "adminLoggedIn" in session then Some(session["adminLoggedIn"]) else None
    }

    /** `checkLogin()`. */
    method CheckLogin()
      modifies this`navigations
      ensures var nav := LoginRedirect(LoggedIn(), href);
        navigations == old(navigations) + (if nav.Some? then [nav.value] else [])
    {
      var nav := LoginRedirect(LoggedIn(), href);
      if nav.Some? {
        navigations := navigations + [nav.value];
      }
    }

    /** `handleLogout()`: only a confirmed logout clears the flag and goes to the login page. */
    method HandleLogout(confirmed: bool)
      modifies this`session, this`navigations
      ensures confirmed ==> session == old(session) - {"adminLoggedIn"} && navigations == old(navigations) + [Assign(LoginPage)]
      ensures !confirmed ==> session == old(session) && navigations == old(navigations)
    {
      if confirmed {
        session := session - {"adminLoggedIn"};
        navigations := navigations + [Assign(LoginPage)];
      }
    }

    /** `highlightSidebar()`: the entry is marked only when its element is on the page. */
    method HighlightSidebar()
      modifies this`activeNav
      ensures SidebarTarget(pathname) == AddDashboard ==>
        activeNav == old(activeNav) + (if "nav-dashboard" in present then {"nav-dashboard"} else {})
      ensures SidebarTarget(pathname).Only? ==>
        var id := SidebarTarget(pathname).navId;
        activeNav == if id in present then {id} else old(activeNav)
      ensures SidebarTarget(pathname) == NoHighlight ==> activeNav == old(activeNav)
    {
      match SidebarTarget(pathname) {
        case AddDashboard =>
          if "nav-dashboard" in present { activeNav := activeNav + {"nav-dashboard"}; }
        case Only(id) =>
          if id in present { activeNav := {id}; }
        case NoHighlight =>
      }
    }

    /** The `unhandledrejection` listener: a 401 logs the user out. */
    method OnUnhandledRejection(reason: Value)
      modifies this`session, this`navigations
      ensures Unauthorized(reason) ==> (session == old(session) - {"adminLoggedIn"}
        && navigations == old(navigations) + [Assign(LoginPage)])
      ensures !Unauthorized(reason) ==> session == old(session) && navigations == old(navigations)
    {
      if Unauthorized(reason) {
        session := session - {"adminLoggedIn"};
        navigations := navigations + [Assign(LoginPage)];
      }
    }
  }
}
