/**
 * The client-side session (frontend/src/context/AuthContext.tsx): the
 * provider holds the signed-in user and a loading flag, asks the backend who
 * is signed in whenever the path changes, and sends admins to the admin pages
 * and everyone else away from them. Router calls are recorded in order.
 */
module AuthContext {
  import opened Wrappers
  import opened Strings

  datatype User = User(id: string, name: string, email: string, role: string)

  /** A router call: `replace(path)`, `push(path)` or `refresh()`. */
  datatype Navigation = Replace(path: string) | Push(path: string) | Refresh

  predicate IsAdminRole(role: string) {
    role == "admin"
  }

  /**
   * Where `checkAuth` sends a user of the given role who is at `pathname`:
   * admins outside /admin go to the admin dashboard, others under /admin go
   * home, and everyone else stays.
   */
  function CheckAuthRedirect(role: string, pathname: string): (r: Option<string>)
    ensures r.Some? <==> IsAdminRole(role) != StartsWith(pathname, "/admin")
    ensures r.Some? ==> r.value == (if IsAdminRole(role) then "/admin/dashboard" else "/")
  {
    if IsAdminRole(role) then
      if !StartsWith(pathname, "/admin") then Some("/admin/dashboard") else None
    else if StartsWith(pathname, "/admin") then Some("/") else None
  }

  /** The page `login` opens for a user of the given role. */
  function LandingFor(role: string): (path: string)
    ensures IsAdminRole(role) <==> StartsWith(path, "/admin")
  {
    if IsAdminRole(role) then "/admin/dashboard" else "/"
  }

  /** A redirect lands where the check sends nobody further: the redirects cannot loop. */
  lemma RedirectSettles(role: string, pathname: string)
    requires CheckAuthRedirect(role, pathname).Some?
    ensures CheckAuthRedirect(role, CheckAuthRedirect(role, pathname).value).None?
  {
    assert StartsWith("/admin/dashboard", "/admin");
  }

  /** Login opens the page the check would leave the user on. */
  lemma LoginLandsWhereCheckStays(role: string)
    ensures CheckAuthRedirect(role, LandingFor(role)).None?
  {
    assert StartsWith("/admin/dashboard", "/admin");
  }

  class AuthProvider {
    var user: Option<User>
    var isLoading: bool
    var navigations: seq<Navigation>

    /** The initial state: nobody signed in, still loading. */
    constructor ()
      ensures user == None && isLoading && navigations == []
    {
      user := None;
      isLoading := true;
      navigations := [];
    }

    /** `isAuthenticated`: `!!user`. */
    function IsAuthenticated(): (b: bool)
      reads this
      ensures b <==> user.Some?
    {
      user.Some?
    }

    /** `isAdmin`: `user?.role === "admin"`. */
    function IsAdmin(): (b: bool)
      reads this
      ensures b <==> user.Some? && IsAdminRole(user.value.role)
      ensures b ==> IsAuthenticated()
    {
      user.Some? && IsAdminRole(user.value.role)
    }

    /**
     * `checkAuth`, run at `pathname`: `fetched` is the user `/auth/me`
     * answers with, None when the request or reading its answer fails.
     */
    method CheckAuth(pathname: string, fetched: Option<User>)
      modifies this
      ensures user == fetched
      ensures !isLoading
      ensures fetched.None? ==> navigations == old(navigations)
      ensures fetched.Some? ==>
        navigations == old(navigations) + match CheckAuthRedirect(fetched.value.role, pathname)
          case Some(p) => [Replace(p)]
          case None => []
    {
      match fetched {
        case None =>
          user := None;
        case Some(u) =>
          user := Some(u);
          if u.role == "admin" {
            if !StartsWith(pathname, "/admin") {
              navigations := navigations + [Replace("/admin/dashboard")];
            }
          } else {
            if StartsWith(pathname, "/admin") {
              navigations := navigations + [Replace("/")];
            }
          }
      }
      isLoading := false;
    }

    /** `login(newUser)`: sign the user in, open their landing page, refresh. */
    method Login(newUser: User)
      modifies this
      ensures user == Some(newUser) && isLoading == old(isLoading)
      ensures navigations == old(navigations) + [Push(LandingFor(newUser.role)), Refresh]
    {
      user := Some(newUser);
      if newUser.role == "admin" {
        navigations := navigations + [Push("/admin/dashboard")];
      } else {
        navigations := navigations + [Push("/")];
      }
      navigations := navigations + [Refresh];
    }

    /** `register(newUser)`: exactly `login(newUser)`. */
    method Register(newUser: User)
      modifies this
      ensures user == Some(newUser) && isLoading == old(isLoading)
      ensures navigations == old(navigations) + [Push(LandingFor(newUser.role)), Refresh]
    {
      Login(newUser);
    }

    /**
     * `logout()`: `succeeded` says whether `POST /auth/logout` succeeded; only
     * then is the user cleared and sent to sign-in.
     */
    method Logout(succeeded: bool)
      modifies this
      ensures isLoading == old(isLoading)
      ensures succeeded ==> user == None && navigations == old(navigations) + [Push("/sign-in"), Refresh]
      ensures !succeeded ==> user == old(user) && navigations == old(navigations)
    {
      if succeeded {
        user := None;
        navigations := navigations + [Push("/sign-in"), Refresh];
      }
    }
  }
}
