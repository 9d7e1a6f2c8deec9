/**
 * The application shell: which paths hide the navigation bar and the
 * footer, and the route table with the roles each protected page admits.
 */
module AppRoutes {
  import opened Wrappers
  import opened ProtectedRoute

  /** The login, registration and password-reset pages. */
  const AuthPaths: seq<string> := ["/", "/register", "/forgot-pass"]

  function HideNavBar(path: string): bool
  {
    path == "/" || path == "/register" || path == "/forgot-pass"
  }

  function HideFooter(path: string): bool
  {
    path == "/" || path == "/register" || path == "/forgot-pass"
  }

  /** The bar and the footer are hidden on exactly the three authentication pages, and always together. */
  lemma ChromeHidden(path: string)
    ensures HideNavBar(path) <==> path in AuthPaths
    ensures HideFooter(path) == HideNavBar(path)
  {
  }

  /** The pages anyone may open. */
  const PublicPaths: seq<string> := ["/", "/register", "/forgot-pass", "/home", "/about", "/contact", "/testimonials"]

  /** The pages behind the role guard. */
  const ProtectedPaths: seq<string> := ["/book-table", "/menu", "/waiter", "/chief", "/admin"]

  /** The roles each protected page admits; `None` for a page without a guard. */
  function AllowedRoles(path: string): Option<seq<string>>
  {
    if path == "/book-table" then Some(["admin"])
    else if path == "/menu" then Some(["admin", "waiter"])
    else if path == "/waiter" then Some(["waiter"])
    else if path == "/chief" then Some(["chef"])
    else if path == "/admin" then Some(["admin"])
    else None
  }

  /** Exactly the protected pages have a role list, so no page is both public and guarded. */
  lemma GuardedExactlyProtected(path: string)
    ensures AllowedRoles(path).Some? <==> path in ProtectedPaths
    ensures path in PublicPaths ==> AllowedRoles(path).None?
  {
  }

  /** What visiting `path` shows, given the stored role. */
  datatype Visit = NoMatch | Page(path: string) | Redirect(to: string)

  function VisitPath(path: string, storedRole: Option<string>): Visit
  {
    if path in PublicPaths then Page(path)
    else if AllowedRoles(path).None? then NoMatch
    else match Guard(storedRole, AllowedRoles(path).value)
      case ToLogin => Redirect("/")
      case ToHome => Redirect("/home")
      case RenderChildren => Page(path)
  }

  /** A protected page shows exactly for a stored role it admits, and otherwise redirects as the guard says. */
  lemma VisitProtected(path: string, storedRole: Option<string>)
    requires path in ProtectedPaths
    ensures VisitPath(path, storedRole) == Page(path) <==>
              storedRole.Some? && storedRole.value != "" && storedRole.value in AllowedRoles(path).value
    ensures storedRole.None? || storedRole.value == "" ==> VisitPath(path, storedRole) == Redirect("/")
  {
    GuardedExactlyProtected(path);
  }

  /** The public pages show for everyone, signed in or not. */
  lemma PublicPagesOpen(path: string, storedRole: Option<string>)
    requires path in PublicPaths
    ensures VisitPath(path, storedRole) == Page(path)
  {
  }
}
