/** The local-storage session hook: who is signed in, and which capabilities that grants. */
module UseAuth {
  import opened Common

  /** The roles a signed-in user carries. The hook's own type lists three of them; the mock
      credential table stores `estudante` in the same field and the header tests for it, so the
      value occurs at run time and is modelled here. */
  datatype Role = Comunidade | Estudante | Mediador | Coordenacao {
    /** The role as the application spells it. */
    function Name(): string {
      match this
      case Comunidade => "comunidade"
      case Estudante => "estudante"
      case Mediador => "mediador"
      case Coordenacao => "coordenacao"
    }
  }

  datatype User = User(
    id: string,
    name: string,
    email: string,
    avatar: string,
    loginTime: string,
    role: Role,
    department: Option<string>,
    specialization: Option<string>)

  /** The argument of a permission check: a single role or a list of roles. */
  datatype Required = One(role: Role) | Many(roles: seq<Role>)

  /** A single role is checked as a one-element list. */
  function RoleList(req: Required): seq<Role> {
    match req
    case One(r) => [r]
    case Many(rs) => rs
  }

  /** `hasPermission`: a user is signed in and their role is one of the required ones. */
  predicate HasPermission(user: Option<User>, req: Required) {
    user.Some? && user.value.role in RoleList(req)
  }

  predicate CanAccessIdeaValidation(user: Option<User>) {
    HasPermission(user, Many([Mediador, Coordenacao]))
  }

  predicate CanAssignToClasses(user: Option<User>) {
    HasPermission(user, One(Coordenacao))
  }

  predicate CanSuggestIdeas(user: Option<User>) {
    HasPermission(user, One(Comunidade))
  }

  /** Permission checks fail closed and treat a single role like a one-element list. */
  lemma HasPermissionSpec(user: Option<User>, r: Role, rs: seq<Role>)
    ensures !HasPermission(None, One(r)) && !HasPermission(None, Many(rs))
    ensures HasPermission(user, One(r)) <==> HasPermission(user, Many([r]))
    ensures HasPermission(user, Many(rs)) <==> user.Some? && exists k :: 0 <= k < |rs| && rs[k] == user.value.role
  {
  }

  /** The capability table of this hook, role by role. */
  lemma CapabilityTable(user: Option<User>)
    ensures CanAccessIdeaValidation(user) <==> user.Some? && user.value.role in {Mediador, Coordenacao}
    ensures CanAssignToClasses(user) <==> user.Some? && user.value.role == Coordenacao
    ensures CanSuggestIdeas(user) <==> user.Some? && user.value.role == Comunidade
    ensures CanAssignToClasses(user) ==> CanAccessIdeaValidation(user)
    ensures !(CanSuggestIdeas(user) && CanAccessIdeaValidation(user))
  {
  }

  /** A partial user record: a present field replaces the stored one. The two optional fields
      can also be supplied as `undefined`, which clears them (`Some(None)`). */
  datatype UserPatch = UserPatch(
    id: Option<string>,
    name: Option<string>,
    email: Option<string>,
    avatar: Option<string>,
    loginTime: Option<string>,
    role: Option<Role>,
    department: Option<Option<string>>,
    specialization: Option<Option<string>>)

  const EmptyPatch := UserPatch(None, None, None, None, None, None, None, None)

  /** `{ ...prev, ...partial }`. */
  function Merge(u: User, p: UserPatch): User {
    User(p.id.GetOr(u.id), p.name.GetOr(u.name), p.email.GetOr(u.email), p.avatar.GetOr(u.avatar),
         p.loginTime.GetOr(u.loginTime), p.role.GetOr(u.role),
         p.department.GetOr(u.department), p.specialization.GetOr(u.specialization))
  }

  /** Merging replaces exactly the supplied fields, an empty patch changes nothing, and merging
      the same patch again changes nothing more. */
  lemma MergeSpec(u: User, p: UserPatch)
    ensures Merge(u, EmptyPatch) == u
    ensures Merge(Merge(u, p), p) == Merge(u, p)
    ensures p.id.None? ==> Merge(u, p).id == u.id
    ensures p.id.Some? ==> Merge(u, p).id == p.id.value
    ensures p.name.None? ==> Merge(u, p).name == u.name
    ensures p.name.Some? ==> Merge(u, p).name == p.name.value
    ensures p.email.None? ==> Merge(u, p).email == u.email
    ensures p.email.Some? ==> Merge(u, p).email == p.email.value
    ensures p.avatar.None? ==> Merge(u, p).avatar == u.avatar
    ensures p.avatar.Some? ==> Merge(u, p).avatar == p.avatar.value
    ensures p.loginTime.None? ==> Merge(u, p).loginTime == u.loginTime
    ensures p.loginTime.Some? ==> Merge(u, p).loginTime == p.loginTime.value
    ensures p.role.None? ==> Merge(u, p).role == u.role
    ensures p.role.Some? ==> Merge(u, p).role == p.role.value
    ensures p.department.None? ==> Merge(u, p).department == u.department
    ensures p.department.Some? ==> Merge(u, p).department == p.department.value
    ensures p.specialization.None? ==> Merge(u, p).specialization == u.specialization
    ensures p.specialization.Some? ==> Merge(u, p).specialization == p.specialization.value
  {
  }

  /** The `fatec-conecta-user` entry of local storage. */
  datatype Stored = Absent | Unreadable | Saved(user: User)

  /** The state the hook keeps: the signed-in user, the loading flag, and the storage entry. */
  class AuthSession {
    var user: Option<User>
    var isLoading: bool
    var stored: Stored

    /** `isAuthenticated: !!user`. */
    predicate IsAuthenticated()
      reads this
    {
      user.Some?
    }

    /** Storage holds exactly the signed-in user. */
    ghost predicate InSync()
      reads this
    {
      stored == (if user.Some? then Saved(user.value) else Absent)
    }

    constructor (stored: Stored)
      ensures user == None && isLoading && this.stored == stored
    {
      user := None;
      isLoading := true;
      this.stored := stored;
    }

    /** The mount effect: adopt a stored user, drop an unreadable entry, stop loading. */
    method CheckAuth()
      modifies this
      ensures !isLoading
      ensures old(stored).Saved? ==> user == Some(old(stored).user) && stored == old(stored)
      ensures old(stored).Unreadable? ==> user == old(user) && stored == Absent
      ensures old(stored).Absent? ==> user == old(user) && stored == Absent
      ensures old(user) == None ==> InSync()
    {
      if stored.Saved? {
        user := Some(stored.user);
      } else if stored.Unreadable? {
        stored := Absent;
      }
      isLoading := false;
    }

    method Login(u: User)
      modifies this
      ensures user == Some(u) && stored == Saved(u) && isLoading == old(isLoading)
      ensures IsAuthenticated() && InSync()
    {
      stored := Saved(u);
      user := Some(u);
    }

    method Logout()
      modifies this
      ensures user == None && stored == Absent && isLoading == old(isLoading)
      ensures !IsAuthenticated() && InSync()
    {
      stored := Absent;
      user := None;
    }

    /** Without a user nothing happens; otherwise the patch is merged and written back. */
    method UpdateUser(p: UserPatch)
      modifies this
      ensures old(user).None? ==> user == None && stored == old(stored)
      ensures old(user).Some? ==> user == Some(Merge(old(user).value, p)) && stored == Saved(user.value)
      ensures isLoading == old(isLoading)
      ensures old(InSync()) ==> InSync()
    {
      if user.Some? {
        var next := Merge(user.value, p);
        stored := Saved(next);
        user := Some(next);
      }
    }
  }
}
