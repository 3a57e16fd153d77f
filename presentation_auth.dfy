/** The Supabase-backed session hook: permissions are read from the role recorded in the
    user's metadata and compared without regard to letter case. */
module PresentationAuth {
  import opened Common
  import opened Text
  import UseAuth
  import RegisterSchema
  import UserProfile
  import AuthApi

  /** The signed-in user as this hook sees it: the top-level `role` the pages read, and the
      optional `user_metadata.role` the permission checks read. */
  datatype AppUser = AppUser(id: string, email: string, role: string, metadataRole: Option<string>)

  function LowerAll(roles: seq<string>): (r: seq<string>)
    ensures |r| == |roles| && forall k :: 0 <= k < |r| ==> r[k] == ToLower(roles[k])
  {
    seq(|roles|, k requires 0 <= k < |roles| => ToLower(roles[k]))
  }

  /** `hasPermission`: a user is signed in, has a metadata role, and its lower-case form is the
      lower-case form of one of the required roles. */
  predicate HasPermission(user: Option<AppUser>, required: seq<string>) {
    user.Some? && user.value.metadataRole.Some? && ToLower(user.value.metadataRole.value) in LowerAll(required)
  }

  predicate CanAccessIdeaValidation(user: Option<AppUser>) {
    HasPermission(user, ["mediador", "coordenacao"])
  }

  predicate CanAssignToClasses(user: Option<AppUser>) {
    HasPermission(user, ["coordenacao"])
  }

  predicate CanSuggestIdeas(user: Option<AppUser>) {
    HasPermission(user, ["comunidade", "estudante"])
  }

  /** The check fails closed, ignores letter case on both sides, and looks only at the
      metadata role. */
  lemma HasPermissionSpec(user: Option<AppUser>, required: seq<string>)
    ensures user.None? || user.value.metadataRole.None? ==> !HasPermission(user, required)
    ensures HasPermission(user, required) <==>
              user.Some? && user.value.metadataRole.Some? &&
              exists k :: 0 <= k < |required| && ToLower(required[k]) == ToLower(user.value.metadataRole.value)
    ensures HasPermission(user, LowerAll(required)) == HasPermission(user, required)
    ensures user.Some? && user.value.metadataRole.Some? ==>
              HasPermission(Some(user.value.(metadataRole := Some(ToLower(user.value.metadataRole.value)))), required)
              == HasPermission(user, required)
  {
    forall k | 0 <= k < |required|
      ensures LowerAll(LowerAll(required))[k] == LowerAll(required)[k]
    {
      ToLowerIdempotent(required[k]);
    }
    assert LowerAll(LowerAll(required)) == LowerAll(required);
    if user.Some? && user.value.metadataRole.Some? {
      ToLowerIdempotent(user.value.metadataRole.value);
    }
  }

  /** The user of this hook whose metadata carries the role `r` of the local-storage hook. */
  function WithMetadataRole(u: UseAuth.User): AppUser {
    AppUser(u.id, u.email, u.role.Name(), Some(u.role.Name()))
  }

  lemma RoleNamesLower(r: UseAuth.Role)
    ensures ToLower(r.Name()) == r.Name()
  {
    LowerCaseFixed(r.Name());
  }

  /** The two hooks agree on idea validation and class assignment, but this one also lets
      students suggest ideas. */
  lemma HooksCompared(u: UseAuth.User)
    ensures CanAccessIdeaValidation(Some(WithMetadataRole(u))) == UseAuth.CanAccessIdeaValidation(Some(u))
    ensures CanAssignToClasses(Some(WithMetadataRole(u))) == UseAuth.CanAssignToClasses(Some(u))
    ensures CanSuggestIdeas(Some(WithMetadataRole(u))) <==>
              UseAuth.CanSuggestIdeas(Some(u)) || u.role == UseAuth.Estudante
  {
    RoleNamesLower(u.role);
    var a := Some(WithMetadataRole(u));
    assert LowerAll(["mediador", "coordenacao"]) == ["mediador", "coordenacao"] by {
      LowerCaseFixed("mediador");
      LowerCaseFixed("coordenacao");
    }
    assert LowerAll(["coordenacao"]) == ["coordenacao"] by {
      LowerCaseFixed("coordenacao");
    }
    assert LowerAll(["comunidade", "estudante"]) == ["comunidade", "estudante"] by {
      LowerCaseFixed("comunidade");
      LowerCaseFixed("estudante");
    }
  }

  /** What `signup` sends: the metadata recorded with the account and the profile posted to
      the user-profile route. */
  datatype SignupRequest = SignupRequest(
    metadataName: string,
    metadataRole: string,
    profile: UserProfile.ProfileInput)

  const SignupRole := "comunidade"

  /** `signup`: the role is fixed, whatever user type the form carried. */
  function Signup(c: RegisterSchema.RegisterData): (r: SignupRequest)
    ensures r.metadataRole == SignupRole && r.profile.role == SignupRole
    ensures r.profile.name == c.name && r.profile.email == c.email && r.profile.phone == c.phone
  {
    SignupRequest(c.name, SignupRole, UserProfile.ProfileInput(c.name, c.email, c.phone, SignupRole))
  }

  /** The chosen user type is ignored, and the profile a validated sign-up posts is accepted and
      stored as a community member. */
  lemma SignupAlwaysCommunity(c: RegisterSchema.RegisterData, t: AuthApi.UserType, isEmail: string -> bool)
    ensures Signup(c.(userType := t)) == Signup(c)
    ensures RegisterSchema.Valid(c, isEmail) ==>
              UserProfile.Post(Signup(c).profile, isEmail, true).Created? &&
              UserProfile.Post(Signup(c).profile, isEmail, true).row.perfil == "Comunidade"
  {
    assert UserProfile.RoleSpellings[4] == SignupRole;
  }

  /** The hook's state. */
  class AuthState {
    var user: Option<AppUser>
    var isLoading: bool

    constructor ()
      ensures user == None && isLoading
    {
      user := None;
      isLoading := true;
    }

    /** The authentication-state subscription: adopt the session's user, stop loading. */
    method OnAuthStateChange(sessionUser: Option<AppUser>)
      modifies this
      ensures user == sessionUser && !isLoading
    {
      user := sessionUser;
      isLoading := false;
    }

    /** `logout`: after signing out there is no user and every permission check fails. */
    method Logout()
      modifies this
      ensures user == None && isLoading == old(isLoading)
      ensures forall required :: !HasPermission(user, required)
    {
      user := None;
    }
  }
}
