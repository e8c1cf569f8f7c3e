/** The route guard of the single-page frontend
    (`src/components/common/ProtectedRoute.tsx`): what it renders for a given
    authentication state, required role and fallback path. */
module ProtectedRoute {
  import opened Wrappers
  import AuthContext

  /** What the guard renders: the verification spinner, a replacing
      navigation to a path, or the protected children. */
  datatype RouteView = Loading | Redirect(to: string) | Children

  /** The default of the `fallbackPath` prop. */
  const LoginPath: string := "/login"

  /** Where a user without the required role is sent. */
  const UnauthorizedPath: string := "/unauthorized"

  /** The `fallbackPath` prop after its default is applied. */
  function Fallback(fallbackPath: Option<string>): (p: string)
    ensures fallbackPath.None? ==> p == LoginPath
    ensures fallbackPath.Some? ==> p == fallbackPath.value
  {
    if fallbackPath.None? then LoginPath else fallbackPath.value
  }

  /** The user's role matches the required one, when there is one; without a
      user there is no role, so any required role is missed. */
  predicate HasRequiredRole(auth: AuthContext.AuthState, requiredRole: Option<AuthContext.Role>)
  {
    requiredRole.Some? ==> auth.user.Some? && auth.user.value.role == requiredRole.value
  }

  /** `ProtectedRoute`: the spinner while loading, the fallback path when not
      authenticated, `/unauthorized` when the role is missed, and the children
      otherwise. */
  function Decide(auth: AuthContext.AuthState, requiredRole: Option<AuthContext.Role>,
                  fallbackPath: Option<string>): (v: RouteView)
    ensures v == Loading <==> auth.isLoading
    ensures v == Children <==>
      !auth.isLoading && auth.isAuthenticated && HasRequiredRole(auth, requiredRole)
    ensures !auth.isLoading && !auth.isAuthenticated ==> v == Redirect(Fallback(fallbackPath))
    ensures !auth.isLoading && auth.isAuthenticated && !HasRequiredRole(auth, requiredRole) ==>
      v == Redirect(UnauthorizedPath)
  {
    if auth.isLoading then Loading
    else if !auth.isAuthenticated then Redirect(Fallback(fallbackPath))
    else if requiredRole.Some? && (auth.user.None? || auth.user.value.role != requiredRole.value) then
      Redirect(UnauthorizedPath)
    else Children
  }

  /** Whatever state logging out starts from, the guard never shows the
      children afterwards. */
  lemma LoggedOutNeverSeesChildren(auth: AuthContext.AuthState, requiredRole: Option<AuthContext.Role>,
                                   fallbackPath: Option<string>)
    ensures Decide(AuthContext.Reduce(auth, AuthContext.Logout), requiredRole, fallbackPath) != Children
    ensures !auth.isLoading ==>
      Decide(AuthContext.Reduce(auth, AuthContext.Logout), requiredRole, fallbackPath)
        == Redirect(Fallback(fallbackPath))
  {
  }

  /** Right after a successful login the children are shown exactly when no
      role is required or the session's user has it. */
  lemma LoginSuccessOpensMatchingRoutes(auth: AuthContext.AuthState, session: AuthContext.Session,
                                        requiredRole: Option<AuthContext.Role>, fallbackPath: Option<string>)
    ensures Decide(AuthContext.Reduce(auth, AuthContext.LoginSuccess(session)), requiredRole, fallbackPath)
      == (if requiredRole.None? || requiredRole.value == session.user.role then Children
          else Redirect(UnauthorizedPath))
  {
  }

  /** A route that admits a user with a required role also admits them when
      no role is required. */
  lemma DroppingTheRoleOnlyWidens(auth: AuthContext.AuthState, role: AuthContext.Role,
                                  fallbackPath: Option<string>)
    requires Decide(auth, Some(role), fallbackPath) == Children
    ensures Decide(auth, None, fallbackPath) == Children
  {
  }

  /** Once start-up has run, a route that requires no role shows its
      children exactly when a non-empty token was stored and the service
      recognised it, and otherwise sends the visitor to the fallback path. */
  lemma StartupRouting(storedToken: Option<string>, currentUser: Result<AuthContext.User, AuthContext.Error>,
                       fallbackPath: Option<string>)
    ensures var auth := AuthContext.RunActions(AuthContext.InitialState(storedToken),
                                               AuthContext.InitAuthActions(storedToken, currentUser));
      Decide(auth, None, fallbackPath)
        == (if AuthContext.Truthy(storedToken) && currentUser.Success? then Children
            else Redirect(Fallback(fallbackPath)))
  {
    AuthContext.StartupOutcome(storedToken, currentUser);
  }
}
