/** The route guard: while the session loads it shows a spinner; afterwards it renders its
    children only for a signed-in user whose role is allowed, and otherwise redirects. */
module ProtectedRoute {
  import opened Common
  import opened UseAuth

  const SignInPath := "/autenticacao"
  const DefaultRedirect := "/"

  /** What the guard renders. */
  datatype View = Spinner | Blank | Children

  /** The guard's effect (a navigation, if any) and what it renders. */
  datatype Outcome = Outcome(redirect: Option<string>, view: View)

  /** The effect and the render of `ProtectedRoute`; `redirectTo` defaults to `/`. */
  function Decide(isLoading: bool, user: Option<User>, allowedRoles: seq<Role>, redirectTo: Option<string>): (o: Outcome)
    ensures o.view.Children? <==> !isLoading && HasPermission(user, Many(allowedRoles))
    ensures o.view.Spinner? <==> isLoading
    ensures o.redirect.None? <==> isLoading || HasPermission(user, Many(allowedRoles))
    ensures !isLoading && user.None? ==> o.redirect == Some(SignInPath)
    ensures !isLoading && user.Some? && user.value.role !in allowedRoles ==>
              o.redirect == Some(redirectTo.GetOr(DefaultRedirect))
  {
    if isLoading then Outcome(None, Spinner)
    else if user.None? then Outcome(Some(SignInPath), Blank)
    else if user.value.role !in allowedRoles then Outcome(Some(redirectTo.GetOr(DefaultRedirect)), Blank)
    else Outcome(None, Children)
  }

  /** A missing user is sent to sign in even when the roles could never admit anyone, and even
      when a custom redirect target is given. */
  lemma MissingUserFirst(allowedRoles: seq<Role>, redirectTo: Option<string>)
    ensures Decide(false, None, allowedRoles, redirectTo) == Outcome(Some(SignInPath), Blank)
  {
  }

  /** Widening the allowed roles never turns a rendered page into a redirect. */
  lemma MoreRolesAdmitMore(isLoading: bool, user: Option<User>, a: seq<Role>, b: seq<Role>, redirectTo: Option<string>)
    requires forall r :: r in a ==> r in b
    ensures Decide(isLoading, user, a, redirectTo).view.Children? ==> Decide(isLoading, user, b, redirectTo).view.Children?
  {
  }
}
