/** The clinic app's shell (`_auth.tsx`): the route guard that runs whenever the path
    changes, the logout action, and what the shell renders. Browser storage, the current
    path and the paths passed to `router.push` are fields of the shell. */
module AuthGuard {

  const LoginPath := "/login"
  const PublicPaths: seq<string> := [LoginPath]

  /** `localStorage.getItem('jwt_token')` is truthy: present and not empty. */
  predicate HasToken(storage: map<string, string>) {
    "jwt_token" in storage && storage["jwt_token"] != ""
  }

  datatype View =
    | Loading                                 // the loading screen
    | PageOnly                                // the page without the header
    | PageWithHeader(logoutButton: bool)      // the header, then the page

  class AppShell {
    var isAuthenticated: bool
    var isLoading: bool
    var storage: map<string, string>
    var pathname: string
    /** The paths passed to `router.push`. */
    var pushes: seq<string>

    constructor (storage0: map<string, string>, pathname0: string)
      ensures !isAuthenticated && isLoading
      ensures storage == storage0 && pathname == pathname0 && pushes == []
    {
      isAuthenticated, isLoading := false, true;
      storage, pathname, pushes := storage0, pathname0, [];
    }

    /** The guard effect: without a token, a path other than `/login` is sent to
        `/login`; with a token the shell is authenticated. The guard never clears
        `isAuthenticated`, and loading is over after every run. */
    method RunGuard()
      modifies this
      ensures !HasToken(storage) && pathname !in PublicPaths ==> pushes == old(pushes) + [LoginPath]
      ensures HasToken(storage) || pathname in PublicPaths ==> pushes == old(pushes)
      ensures isAuthenticated == (old(isAuthenticated) || HasToken(storage))
      ensures !isLoading
      ensures storage == old(storage) && pathname == old(pathname)
    {
      var hasToken := "jwt_token" in storage && storage["jwt_token"] != "";
      if !hasToken && pathname !in PublicPaths {
        pushes := pushes + [LoginPath];
      } else if hasToken {
        isAuthenticated := true;
      }
      isLoading := false;
    }

    /** The router arrives at `path`; the guard runs again when the path changed. */
    method Navigate(path: string)
      modifies this
      ensures pathname == path && storage == old(storage)
      ensures path == old(pathname) ==>
        isAuthenticated == old(isAuthenticated) && isLoading == old(isLoading) && pushes == old(pushes)
      ensures path != old(pathname) ==> !isLoading && isAuthenticated == (old(isAuthenticated) || HasToken(storage))
      ensures path != old(pathname) && !HasToken(storage) && path !in PublicPaths ==> pushes == old(pushes) + [LoginPath]
      ensures path != old(pathname) && (HasToken(storage) || path in PublicPaths) ==> pushes == old(pushes)
    {
      if path != pathname {
        pathname := path;
        RunGuard();
      }
    }

    /** `handleLogout`: all of storage is cleared and the router is sent to `/login`. */
    method Logout()
      modifies this
      ensures storage == map[] && pushes == old(pushes) + [LoginPath]
      ensures isAuthenticated == old(isAuthenticated) && isLoading == old(isLoading) && pathname == old(pathname)
    {
      storage := map[];
      pushes := pushes + [LoginPath];
    }

    /** What the shell renders: the loading screen until the guard has run, the bare page
        on `/login`, and otherwise the header, with the Logout button only when
        authenticated. */
    function Render(): (v: View)
      reads this
      ensures v == Loading <==> isLoading
      ensures v == PageOnly <==> !isLoading && pathname == LoginPath
      ensures v.PageWithHeader? ==> (v.logoutButton <==> isAuthenticated)
    {
      if isLoading then Loading
      else if pathname == LoginPath then PageOnly
      else PageWithHeader(isAuthenticated)
    }
  }

  /** Logging out from a protected page: the shell lands on `/login` and shows the bare
      page; `isAuthenticated` keeps its old value, since only a remount resets it. */
  method LogoutFromPage(shell: AppShell)
    requires shell.pathname != LoginPath
    modifies shell
    ensures shell.storage == map[] && shell.pathname == LoginPath
    ensures shell.Render() == PageOnly
    ensures shell.isAuthenticated == old(shell.isAuthenticated)
  {
    shell.Logout();
    shell.Navigate(LoginPath);
  }
}
