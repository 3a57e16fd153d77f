/** The site header: role-gated navigation links, and the user menu with its dropdown. */
module Header {
  import opened Common
  import opened UseAuth

  datatype NavLink = SugerirMelhoria | BancoDeIdeias | ValidarIdeias | DirecionarParaCurso | AcompanharProjetos {
    function Href(): string {
      match this
      case SugerirMelhoria => "/sugerir-melhoria"
      case BancoDeIdeias => "/banco-de-ideias"
      case ValidarIdeias => "/validar-ideias"
      case DirecionarParaCurso => "/coordenacao/projetos"
      case AcompanharProjetos => "/acompanhar-projetos"
    }
  }

  predicate HasRole(user: Option<User>, r: Role) {
    user.Some? && user.value.role == r
  }

  /** The navigation links, in page order. */
  function NavLinks(user: Option<User>): (r: seq<NavLink>)
    ensures |r| >= 1 && r[|r| - 1] == AcompanharProjetos
    ensures SugerirMelhoria in r <==> CanSuggestIdeas(user)
    ensures ValidarIdeias in r <==> CanAccessIdeaValidation(user)
    ensures DirecionarParaCurso in r <==> CanAssignToClasses(user)
    ensures BancoDeIdeias in r <==> user.Some? && user.value.role == Estudante
    ensures user.None? ==> r == [AcompanharProjetos]
  {
    (if HasRole(user, Comunidade) then [SugerirMelhoria] else []) +
    (if HasRole(user, Estudante) then [BancoDeIdeias] else []) +
    (if HasRole(user, Mediador) || HasRole(user, Coordenacao) then [ValidarIdeias] else []) +
    (if HasRole(user, Coordenacao) then [DirecionarParaCurso] else []) +
    [AcompanharProjetos]
  }

  /** Every signed-in user sees exactly one role-specific page besides coordination's extra
      link, and project tracking is always offered. */
  lemma NavLinksByRole(u: User)
    ensures u.role == Comunidade ==> NavLinks(Some(u)) == [SugerirMelhoria, AcompanharProjetos]
    ensures u.role == Estudante ==> NavLinks(Some(u)) == [BancoDeIdeias, AcompanharProjetos]
    ensures u.role == Mediador ==> NavLinks(Some(u)) == [ValidarIdeias, AcompanharProjetos]
    ensures u.role == Coordenacao ==> NavLinks(Some(u)) == [ValidarIdeias, DirecionarParaCurso, AcompanharProjetos]
  {
    var user := Some(u);
    match u.role {
      case Comunidade =>
        assert NavLinks(user) == [SugerirMelhoria] + [] + [] + [] + [AcompanharProjetos];
      case Estudante =>
        assert NavLinks(user) == [] + [BancoDeIdeias] + [] + [] + [AcompanharProjetos];
      case Mediador =>
        assert NavLinks(user) == [] + [] + [ValidarIdeias] + [] + [AcompanharProjetos];
      case Coordenacao =>
        assert NavLinks(user) == [] + [] + [ValidarIdeias] + [DirecionarParaCurso] + [AcompanharProjetos];
    }
  }

  datatype MenuItem = Perfil | Configuracoes | Direcionar | Sair

  /** The dropdown entries of a signed-in user. */
  function DropdownItems(u: User): (r: seq<MenuItem>)
    ensures Direcionar in r <==> u.role == Coordenacao
    ensures |r| >= 3 && r[0] == Perfil && r[1] == Configuracoes && r[|r| - 1] == Sair
  {
    [Perfil, Configuracoes] + (if u.role == Coordenacao then [Direcionar] else []) + [Sair]
  }

  /** Following an entry closes the dropdown for the profile and settings links only. */
  predicate ClosesDropdown(item: MenuItem) {
    item == Perfil || item == Configuracoes
  }

  /** The header's state: whether the dropdown is open, over the session it reads. */
  class HeaderState {
    var dropdownOpen: bool
    const session: AuthSession

    constructor (session: AuthSession)
      ensures !dropdownOpen && this.session == session
    {
      dropdownOpen := false;
      this.session := session;
    }

    /** The user menu replaces the login button exactly when someone is signed in. */
    predicate ShowsUserMenu()
      reads this, session
    {
      session.IsAuthenticated()
    }

    /** The dropdown is visible when it is open and the user menu is shown. */
    predicate DropdownVisible()
      reads this, session
    {
      dropdownOpen && ShowsUserMenu()
    }

    /** The menu button. */
    method Toggle()
      modifies this
      ensures dropdownOpen == !old(dropdownOpen)
    {
      dropdownOpen := !dropdownOpen;
    }

    /** A mouse press: outside the dropdown it closes it, inside it changes nothing. */
    method MouseDown(insideDropdown: bool)
      modifies this
      ensures dropdownOpen == (old(dropdownOpen) && insideDropdown)
    {
      if !insideDropdown {
        dropdownOpen := false;
      }
    }

    /** Following a dropdown entry other than sign-out. */
    method FollowItem(item: MenuItem)
      requires item != Sair
      modifies this
      ensures dropdownOpen == (old(dropdownOpen) && !ClosesDropdown(item))
    {
      if ClosesDropdown(item) {
        dropdownOpen := false;
      }
    }

    /** `handleLogout`: sign out, close the dropdown, go to the home page. */
    method HandleLogout() returns (location: string)
      modifies this, session
      ensures !dropdownOpen && session.user == None && session.stored == Absent
      ensures !ShowsUserMenu() && !DropdownVisible()
      ensures location == "/"
    {
      session.Logout();
      dropdownOpen := false;
      location := "/";
    }
  }
}
