/** The translation between the roles the front end offers at sign-up and the profiles the
    back end stores. */
module AuthApi {
  import opened Common

  /** The sign-up choice of user type. */
  datatype UserType = Comunidade | Mediador | Coordenacao {
    function Name(): string {
      match this
      case Comunidade => "comunidade"
      case Mediador => "mediador"
      case Coordenacao => "coordenacao"
    }
  }

  /** `z.enum(['comunidade', 'mediador', 'coordenacao'])`: the user type a string spells. */
  function ParseUserType(s: string): (r: Option<UserType>)
    ensures r.Some? ==> r.value.Name() == s
    ensures r.None? ==> forall t: UserType :: t.Name() != s
  {
    if s == "comunidade" then Some(Comunidade)
    else if s == "mediador" then Some(Mediador)
    else if s == "coordenacao" then Some(Coordenacao)
    else None
  }

  /** Every user type parses back from its name. */
  lemma UserTypeNameRoundTrip(t: UserType)
    ensures ParseUserType(t.Name()) == Some(t)
  {
  }

  /** The back end's profile (`perfil`) values. */
  datatype BackendRole = Administrador | Supervisor | MediadorRole | Aluno | ComunidadeRole {
    function Name(): string {
      match this
      case Administrador => "Administrador"
      case Supervisor => "Supervisor"
      case MediadorRole => "Mediador"
      case Aluno => "Aluno"
      case ComunidadeRole => "Comunidade"
    }
  }

  /** `mapUserTypeToBackendRole`: coordination is stored as administrator. */
  function ToBackendRole(t: UserType): (r: BackendRole)
    ensures r != Supervisor && r != Aluno
  {
    match t
    case Comunidade => ComunidadeRole
    case Mediador => MediadorRole
    case Coordenacao => Administrador
  }

  /** `mapBackendRoleToUserType`: supervisors read as mediators, students as community. */
  function FromBackendRole(r: BackendRole): UserType {
    match r
    case ComunidadeRole => Comunidade
    case MediadorRole => Mediador
    case Supervisor => Mediador
    case Administrador => Coordenacao
    case Aluno => Comunidade
  }

  /** Every user type survives the trip to the back end and back. */
  lemma RoleRoundTrip(t: UserType)
    ensures FromBackendRole(ToBackendRole(t)) == t
  {
  }

  /** The forward map is injective and every back-end role except Supervisor and Aluno comes
      back unchanged; the reverse map merges Supervisor with Mediador and Aluno with Comunidade,
      so it is not injective. */
  lemma RoleMapShape()
    ensures forall t, u :: ToBackendRole(t) == ToBackendRole(u) ==> t == u
    ensures forall r :: r != Supervisor && r != Aluno ==> ToBackendRole(FromBackendRole(r)) == r
    ensures ToBackendRole(Coordenacao) == Administrador
    ensures FromBackendRole(Supervisor) == FromBackendRole(MediadorRole) == Mediador
    ensures FromBackendRole(Aluno) == FromBackendRole(ComunidadeRole) == Comunidade
  {
  }
}
