/** The admin area's layout logic: which screen the session gets, which
    navigation entries are highlighted, and the header title. */
module AdminLayout {

  datatype Option<T> = None | Some(value: T)

  /** The two roles a user can hold. */
  datatype Role = User | Admin

  datatype SessionUser = SessionUser(id: string, email: string, name: Option<string>, image: Option<string>, role: Role)

  /** A session; `user` is read with optional chaining, so it may be absent. */
  datatype Session = Session(user: Option<SessionUser>)

  /** The session hook's status values. */
  datatype Status = Loading | Authenticated | Unauthenticated

  /** What the layout renders. */
  datatype Access = ShowSpinner | DenySignIn | DenyNoPermission | Granted

  /** `session.user?.role === 'ADMIN'`. */
  predicate IsAdminSession(s: Session)
  {
    s.user.Some? && s.user.value.role == Admin
  }

  /** The early returns of the layout, in order: the spinner while loading,
      the sign-in denial without a session, the permission denial for a
      session that is not an admin's, and the panel otherwise. */
  function Gate(status: Status, session: Option<Session>): (a: Access)
    ensures a == ShowSpinner <==> status == Loading
    ensures a == DenySignIn <==> status != Loading && session.None?
    ensures a == DenyNoPermission <==> status != Loading && session.Some? && !IsAdminSession(session.value)
    ensures a == Granted <==> status != Loading && session.Some? && IsAdminSession(session.value)
  {
    if status == Loading then ShowSpinner
    else if session.None? then DenySignIn
    else if !IsAdminSession(session.value) then DenyNoPermission
    else Granted
  }

  /** One entry of the admin side bar. */
  datatype NavItem = NavItem(name: string, href: string)

  /** The side bar: seven entries, each under the "/admin" path. */
  function AdminNavigation(): (nav: seq<NavItem>)
    ensures |nav| == 7
    ensures forall k :: 0 <= k < |nav| ==> |nav[k].href| >= 6 && nav[k].href[..6] == "/admin"
  {
    [
      NavItem("Dashboard", "/admin"),
      NavItem("Products", "/admin/products"),
      NavItem("Categories", "/admin/categories"),
      NavItem("Orders", "/admin/orders"),
      NavItem("Users", "/admin/users"),
      NavItem("Analytics", "/admin/analytics"),
      NavItem("Settings", "/admin/settings")
    ]
  }

  /** An entry is highlighted only on exactly its own path. */
  predicate IsActive(item: NavItem, pathname: string)
  {
    pathname == item.href
  }

  /** The number of highlighted entries. */
  function CountActive(nav: seq<NavItem>, pathname: string): (n: nat)
    ensures n <= |nav|
    ensures n == 0 <==> forall k :: 0 <= k < |nav| ==> !IsActive(nav[k], pathname)
  {
    if nav == [] then 0
    else (if IsActive(nav[0], pathname) then 1 else 0) + CountActive(nav[1..], pathname)
  }

  ghost predicate DistinctHrefs(nav: seq<NavItem>)
  {
    forall i, j :: 0 <= i < |nav| && 0 <= j < |nav| && i != j ==> nav[i].href != nav[j].href
  }

  /** With distinct hrefs no path highlights two entries. */
  lemma {:induction false} AtMostOneActive(nav: seq<NavItem>, pathname: string)
    requires DistinctHrefs(nav)
    ensures CountActive(nav, pathname) <= 1
  {
    if nav != [] {
      var tail := nav[1..];
      assert DistinctHrefs(tail) by {
        assert forall k :: 0 <= k < |tail| ==> tail[k] == nav[k + 1];
      }
      AtMostOneActive(tail, pathname);
      if IsActive(nav[0], pathname) {
        forall k | 0 <= k < |tail| ensures !IsActive(tail[k], pathname) {
          assert tail[k] == nav[k + 1];
        }
      }
    }
  }

  /** The admin side bar links to seven different paths. */
  lemma AdminHrefsDistinct()
    ensures DistinctHrefs(AdminNavigation())
  {
    var nav := AdminNavigation();
    assert |nav[0].href| == 6 && |nav[1].href| == 15 && |nav[2].href| == 17 && |nav[3].href| == 13;
    assert |nav[4].href| == 12 && |nav[5].href| == 16 && |nav[6].href| == 15;
    assert nav[1].href[7] != nav[6].href[7];
  }

  /** On any path at most one side-bar entry is highlighted. */
  lemma AdminAtMostOneActive(pathname: string)
    ensures CountActive(AdminNavigation(), pathname) <= 1
  {
    AdminHrefsDistinct();
    AtMostOneActive(AdminNavigation(), pathname);
  }

  /** Entry `k` is on `pathname` and no earlier entry is. */
  predicate FirstOnPath(nav: seq<NavItem>, pathname: string, k: int)
    requires 0 <= k < |nav|
  {
    nav[k].href == pathname && forall m :: 0 <= m < k ==> nav[m].href != pathname
  }

  /** `nav.find(item => item.href === pathname)`: the first entry on that path. */
  function FindByHref(nav: seq<NavItem>, pathname: string): (r: Option<NavItem>)
    ensures r.None? <==> forall k :: 0 <= k < |nav| ==> nav[k].href != pathname
    ensures r.Some? ==> exists k :: 0 <= k < |nav| && FirstOnPath(nav, pathname, k) && nav[k] == r.value
  {
    if nav == [] then None
    else if nav[0].href == pathname then
      assert FirstOnPath(nav, pathname, 0);
      Some(nav[0])
    else
      var r := FindByHref(nav[1..], pathname);
      if r.Some? then
        var k :| 0 <= k < |nav[1..]| && FirstOnPath(nav[1..], pathname, k) && nav[1..][k] == r.value;
        assert nav[k + 1] == r.value && FirstOnPath(nav, pathname, k + 1);
        r
      else r
  }

  const DefaultTitle: string := "Admin Dashboard"

  /** `find(...)?.name || 'Admin Dashboard'`: the name of the first entry on
      the path, or the default when there is none (or its name is empty). */
  function HeaderTitle(nav: seq<NavItem>, pathname: string): (title: string)
    ensures title == DefaultTitle || exists k :: 0 <= k < |nav| && nav[k].href == pathname && nav[k].name == title
    ensures (forall k :: 0 <= k < |nav| ==> nav[k].href != pathname) ==> title == DefaultTitle
    ensures forall k :: 0 <= k < |nav| && FirstOnPath(nav, pathname, k) ==>
      title == (if nav[k].name != [] then nav[k].name else DefaultTitle)
  {
    var found := FindByHref(nav, pathname);
    if found.Some? then
      var m :| 0 <= m < |nav| && FirstOnPath(nav, pathname, m) && nav[m] == found.value;
      if found.value.name != [] then found.value.name else DefaultTitle
    else DefaultTitle
  }

  /** With distinct hrefs, the title on an entry's own path is that entry's name. */
  lemma TitleOfOwnPath(nav: seq<NavItem>, k: int)
    requires DistinctHrefs(nav) && 0 <= k < |nav| && nav[k].name != []
    ensures HeaderTitle(nav, nav[k].href) == nav[k].name
  {
    var found := FindByHref(nav, nav[k].href);
    var m :| 0 <= m < |nav| && FirstOnPath(nav, nav[k].href, m) && nav[m] == found.value;
  }

  /** The orders page is titled "Orders". */
  lemma OrdersTitle()
    ensures HeaderTitle(AdminNavigation(), "/admin/orders") == "Orders"
  {
    AdminHrefsDistinct();
    TitleOfOwnPath(AdminNavigation(), 3);
  }

  /** A page below an entry's path gets the default title: there is no prefix match. */
  lemma NewProductPageTitle()
    ensures HeaderTitle(AdminNavigation(), "/admin/products/new") == DefaultTitle
  {
    var nav := AdminNavigation();
    assert |nav[0].href| == 6 && |nav[1].href| == 15 && |nav[2].href| == 17 && |nav[3].href| == 13;
    assert |nav[4].href| == 12 && |nav[5].href| == 16 && |nav[6].href| == 15;
    assert forall k :: 0 <= k < |nav| ==> nav[k].href != "/admin/products/new";
  }
}
