/**
 * The application shell: the redirect between the sign-in pages and the
 * protected pages, the highlighted navigation entry, logging out, and when
 * the sidebar layout is shown instead of the bare page.
 */
module AppShell {
  import opened Wrappers
  import opened Strings
  import AuthStore

  const AuthPrefix := "/auth"
  const SignInPath := "/auth/sign-in"
  const HomePath := "/"

  /** Any path under `/auth` (by plain prefix, so `/authors` counts too) is a sign-in page. */
  predicate IsAuthPage(pathname: string) {
    StartsWith(pathname, AuthPrefix)
  }

  /** Every other path needs a signed-in user. */
  predicate IsProtectedPage(pathname: string) {
    !StartsWith(pathname, AuthPrefix)
  }

  /** Each path is exactly one of the two kinds, so at most one redirect rule applies to it. */
  lemma PageKindsComplement(pathname: string)
    ensures IsAuthPage(pathname) != IsProtectedPage(pathname)
  {
  }

  /**
   * The redirect effect: nothing until the shell is mounted and the session
   * has loaded; then a signed-out user on a protected page goes to the
   * sign-in page and a signed-in user on a sign-in page goes home.
   */
  function Redirect(mounted: bool, loading: bool, isAuthenticated: bool, pathname: string): (r: Option<string>)
    ensures !mounted || loading ==> r == None
    ensures mounted && !loading && !isAuthenticated ==> (r == Some(SignInPath) <==> IsProtectedPage(pathname))
    ensures mounted && !loading && isAuthenticated ==> (r == Some(HomePath) <==> IsAuthPage(pathname))
    ensures r == None || r == Some(SignInPath) || r == Some(HomePath)
  {
    if !mounted || loading then None
    else if !isAuthenticated && IsProtectedPage(pathname) then Some(SignInPath)
    else if isAuthenticated && IsAuthPage(pathname) then Some(HomePath)
    else None
  }

  /** The redirect lands where the user may stay: a signed-out user on a sign-in page, a signed-in one on a protected page. */
  lemma RedirectTargetAllowed(mounted: bool, loading: bool, isAuthenticated: bool, pathname: string)
    requires Redirect(mounted, loading, isAuthenticated, pathname).Some?
    ensures var target := Redirect(mounted, loading, isAuthenticated, pathname).value;
      if isAuthenticated then IsProtectedPage(target) else IsAuthPage(target)
  {
    assert SignInPath[..|AuthPrefix|] == AuthPrefix;
  }

  /** A redirect target redirects no further under the same session: the rule cannot loop. */
  lemma RedirectFixpoint(mounted: bool, loading: bool, isAuthenticated: bool, pathname: string)
    requires Redirect(mounted, loading, isAuthenticated, pathname).Some?
    ensures Redirect(mounted, loading, isAuthenticated, Redirect(mounted, loading, isAuthenticated, pathname).value) == None
  {
    RedirectTargetAllowed(mounted, loading, isAuthenticated, pathname);
  }

  // ---------------------------------------------------------------------------
  // Navigation

  datatype NavItem = NavItem(name: string, href: string)

  const ProtectedNavigation: seq<NavItem> := [
    NavItem("Dashboard", "/"),
    NavItem("Risk Analysis", "/risk"),
    NavItem("Predict", "/predict"),
    NavItem("Dividend", "/dividend"),
    NavItem("News", "/news"),
    NavItem("Settings", "/settings")
  ]

  /** An entry is highlighted when the path is exactly its `href`; sub-paths do not count. */
  predicate IsActive(item: NavItem, pathname: string) {
    pathname == item.href
  }

  /** The entries' `href`s are pairwise different. */
  lemma NavHrefsDistinct(i: nat, j: nat)
    requires i < j < |ProtectedNavigation|
    ensures ProtectedNavigation[i].href != ProtectedNavigation[j].href
  {
    var a := ProtectedNavigation[i].href;
    var b := ProtectedNavigation[j].href;
    if |a| == |b| {
      assert a[1] != b[1];
    }
  }

  /** At most one entry is highlighted on any path. */
  lemma AtMostOneActive(pathname: string, i: nat, j: nat)
    requires i < |ProtectedNavigation| && j < |ProtectedNavigation|
    requires IsActive(ProtectedNavigation[i], pathname) && IsActive(ProtectedNavigation[j], pathname)
    ensures i == j
  {
    if i < j {
      NavHrefsDistinct(i, j);
    } else if j < i {
      NavHrefsDistinct(j, i);
    }
  }

  /** No entry is highlighted on a sign-in page. */
  lemma NoActiveOnAuthPage(pathname: string, i: nat)
    requires i < |ProtectedNavigation| && IsAuthPage(pathname)
    ensures !IsActive(ProtectedNavigation[i], pathname)
  {
    var h := ProtectedNavigation[i].href;
    assert |h| < |AuthPrefix| || h[1] != AuthPrefix[1];
  }

  // ---------------------------------------------------------------------------
  // The shell's state

  /** The shell's own state beside the auth store it reads. */
  class Shell {
    var mounted: bool
    var sidebarOpen: bool
    const store: AuthStore.Store

    constructor (store: AuthStore.Store)
      ensures !mounted && !sidebarOpen && this.store == store
    {
      mounted := false;
      sidebarOpen := false;
      this.store := store;
    }

    /** Where the redirect effect sends the browser on `pathname`, if anywhere. */
    function RedirectFor(pathname: string): Option<string>
      reads this, store
    {
      Redirect(mounted, store.loading, store.isAuthenticated, pathname)
    }

    /** The sidebar layout is shown only when mounted, loaded and signed in; otherwise the bare page is. */
    predicate ShowsSidebar()
      reads this, store
    {
      mounted && !store.loading && store.isAuthenticated
    }

    /** The layout and the redirect agree: a page shown in the sidebar layout is never redirected away from unless it is a sign-in page. */
    lemma SidebarPagesStay(pathname: string)
      requires ShowsSidebar() && IsProtectedPage(pathname)
      ensures RedirectFor(pathname) == None
    {
    }

    /**
     * The mount effect: the session is loaded from storage and the shell is
     * marked mounted, after which the redirect rule is in force.
     */
    method Mount(parse: string -> Option<AuthStore.User>)
      requires store.Valid()
      modifies this, store
      ensures mounted && sidebarOpen == old(sidebarOpen) && !store.loading && store.Valid()
      ensures store.storage == old(store.storage) && store.error == old(store.error)
      ensures var t := AuthStore.GetItem(store.storage, AuthStore.StorageKey);
              var u := AuthStore.GetItem(store.storage, AuthStore.UserStorageKey);
        if AuthStore.Truthy(t) && AuthStore.Truthy(u) && parse(u.value).Some? then
          store.user == parse(u.value) && store.token == t && store.isAuthenticated
        else
          store.user == old(store.user) && store.token == old(store.token) && store.isAuthenticated == old(store.isAuthenticated)
      ensures forall p :: RedirectFor(p) == (if store.isAuthenticated then (if IsAuthPage(p) then Some(HomePath) else None)
                                                else (if IsProtectedPage(p) then Some(SignInPath) else None))
    {
      store.LoadSession(parse);
      mounted := true;
    }

    /**
     * `handleLogout`: signs out, then navigates to the sign-in page, where
     * the redirect rule leaves the user; any protected page now redirects
     * there once mounted.
     */
    method HandleLogout() returns (navigate: string)
      requires store.Valid()
      modifies store
      ensures navigate == SignInPath
      ensures store.user == None && store.token == None && !store.isAuthenticated && !store.loading && store.error == None
      ensures store.storage == old(store.storage) - {AuthStore.StorageKey, AuthStore.UserStorageKey}
      ensures store.Valid() && !ShowsSidebar()
      ensures RedirectFor(navigate) == None
      ensures mounted ==> forall p :: IsProtectedPage(p) ==> RedirectFor(p) == Some(SignInPath)
    {
      store.SignOut();
      navigate := SignInPath;
      assert SignInPath[..|AuthPrefix|] == AuthPrefix;
    }

    /** The menu button flips the mobile sidebar. */
    method ToggleSidebar()
      modifies this
      ensures sidebarOpen == !old(sidebarOpen) && mounted == old(mounted)
    {
      sidebarOpen := !sidebarOpen;
    }

    /** The overlay and every navigation entry close the mobile sidebar. */
    method CloseSidebar()
      modifies this
      ensures !sidebarOpen && mounted == old(mounted)
    {
      sidebarOpen := false;
    }
  }
}
