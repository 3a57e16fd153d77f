/** The fixed table of demonstration accounts and the credential lookup over it. */
module MockUsers {
  import opened Common
  import opened Text
  import opened UseAuth

  datatype MockUser = MockUser(
    email: string,
    password: string,
    role: Role,
    name: string,
    department: Option<string>,
    specialization: Option<string>)

  const ComunidadeEmail := "comunidade@fatecconecta.com"
  const MediadorEmail := "mediador@fatecconecta.com"
  const CoordenacaoEmail := "coordenacao@fatecconecta.com"
  const EstudanteEmail := "estudante@fatecconecta.com"

  /** The password every demonstration account shares. */
  const MockPassword := "123456"

  /** `MOCK_USERS`, keyed by e-mail address. */
  const Table: map<string, MockUser> := map[
    ComunidadeEmail :=
      MockUser(ComunidadeEmail, MockPassword, Comunidade, "Membro da Comunidade", None, None),
    MediadorEmail :=
      MockUser(MediadorEmail, MockPassword, Mediador, "Mediador(a)", None, Some("Tecnologia e Inovação")),
    CoordenacaoEmail :=
      MockUser(CoordenacaoEmail, MockPassword, Coordenacao, "Coordenação",
               Some("Desenvolvimento de Software Multiplataforma"), None),
    EstudanteEmail :=
      MockUser(EstudanteEmail, MockPassword, Estudante, "Estudante", None, None)
  ]

  /** The lookup key of an address: trimmed, then lower-cased. */
  function NormalizeEmail(email: string): string {
    ToLower(Trim(email))
  }

  lemma NormalizeIdempotent(email: string)
    ensures NormalizeEmail(NormalizeEmail(email)) == NormalizeEmail(email)
  {
    TrimIdempotent(email);
    TrimLowerCommute(Trim(email));
    ToLowerIdempotent(Trim(email));
  }

  /** No white space at either end and no upper-case letter. */
  ghost predicate Plain(s: string) {
    (s == [] || (!IsSpace(s[0]) && !IsSpace(s[|s| - 1]))) &&
    forall i :: 0 <= i < |s| ==> !IsUpper(s[i])
  }

  /** A plain string is already a key. */
  lemma NormalizedWhenPlain(s: string)
    requires Plain(s)
    ensures NormalizeEmail(s) == s
  {
    assert TrimStart(s) == s;
    assert TrimEnd(s) == s;
    LowerCaseFixed(s);
  }

  /** The four addresses are different, so each is stored under its own key. */
  lemma AddressesDistinct()
    ensures ComunidadeEmail != MediadorEmail && ComunidadeEmail != CoordenacaoEmail
    ensures ComunidadeEmail != EstudanteEmail && MediadorEmail != CoordenacaoEmail
    ensures MediadorEmail != EstudanteEmail && CoordenacaoEmail != EstudanteEmail
  {
    assert ComunidadeEmail[0] != MediadorEmail[0] && ComunidadeEmail[2] != CoordenacaoEmail[2];
    assert ComunidadeEmail[0] != EstudanteEmail[0] && MediadorEmail[0] != CoordenacaoEmail[0];
    assert MediadorEmail[0] != EstudanteEmail[0] && CoordenacaoEmail[0] != EstudanteEmail[0];
  }

  /** Every entry is stored under its own address. */
  lemma TableKeyedByEmail()
    ensures forall k :: k in Table ==> Table[k].email == k
  {
    AddressesDistinct();
  }

  lemma ComunidadePlain() ensures Plain(ComunidadeEmail) {}
  lemma MediadorPlain() ensures Plain(MediadorEmail) {}
  lemma CoordenacaoPlain() ensures Plain(CoordenacaoEmail) {}
  lemma EstudantePlain() ensures Plain(EstudanteEmail) {}

  /** Every key of the table is plain. */
  lemma KeysPlain(k: string)
    requires k in Table
    ensures Plain(k)
  {
    if k == ComunidadeEmail {
      ComunidadePlain();
    } else if k == MediadorEmail {
      MediadorPlain();
    } else if k == CoordenacaoEmail {
      CoordenacaoPlain();
    } else {
      EstudantePlain();
    }
  }

  /** Every entry is stored under its own address, and that address is already normalised, so
      every entry can be reached by a lookup. */
  lemma TableInvariant()
    ensures forall k :: k in Table ==> Table[k].email == k && NormalizeEmail(k) == k
  {
    TableKeyedByEmail();
    forall k | k in Table
      ensures NormalizeEmail(k) == k
    {
      KeysPlain(k);
      NormalizedWhenPlain(k);
    }
  }

  /** `resolveMockUser`: the entry for the normalised address, if its password is exactly the
      one given. */
  function ResolveMockUser(email: string, password: string): (r: Option<MockUser>)
    ensures NormalizeEmail(email) !in Table ==> r == None
    ensures r.Some? ==> r.value in Table.Values && r.value.email == NormalizeEmail(email)
    ensures r.Some? ==> r.value.password == password
    ensures NormalizeEmail(email) in Table && Table[NormalizeEmail(email)].password != password ==> r == None
  {
    TableInvariant();
    var key := NormalizeEmail(email);
    if key !in Table then None
    else if Table[key].password != password then None
    else Some(Table[key])
  }

  /** The lookup ignores case and surrounding white space in the address. */
  lemma ResolveIgnoresCaseAndSpace(email: string, password: string)
    ensures ResolveMockUser(NormalizeEmail(email), password) == ResolveMockUser(email, password)
  {
    NormalizeIdempotent(email);
  }

  /** Every account signs in with its own credentials. */
  lemma ResolveOwnCredentials(k: string)
    requires k in Table
    ensures ResolveMockUser(Table[k].email, Table[k].password) == Some(Table[k])
  {
    TableInvariant();
  }

  /** One space on each side of a word is trimmed away. */
  lemma TrimPadded(t: string)
    requires t != [] && !IsSpace(t[0]) && !IsSpace(t[|t| - 1])
    ensures Trim([' '] + t + [' ']) == t
  {
    var e := [' '] + t + [' '];
    assert e[1..] == t + [' '];
    assert TrimStart(e) == t + [' '];
    assert (t + [' '])[..|t|] == t;
  }

  lemma TrimExample()
    ensures Trim(" Mediador@FatecConecta.com ") == "Mediador@FatecConecta.com"
  {
    var t := "Mediador@FatecConecta.com";
    assert " Mediador@FatecConecta.com " == [' '] + t + [' '];
    TrimPadded(t);
  }

  lemma LowerExample()
    ensures ToLower("Mediador@FatecConecta.com") == MediadorEmail
  {
  }

  /** A padded, capitalised address normalises to the stored key. */
  lemma NormalizeExample()
    ensures NormalizeEmail(" Mediador@FatecConecta.com ") == MediadorEmail
  {
    TrimExample();
    LowerExample();
  }

  /** A padded, capitalised address still signs in. */
  lemma ResolvePaddedAddress()
    ensures ResolveMockUser(" Mediador@FatecConecta.com ", MockPassword) == Some(Table[MediadorEmail])
  {
    ResolveIgnoresCaseAndSpace(" Mediador@FatecConecta.com ", MockPassword);
    NormalizeExample();
    ResolveOwnCredentials(MediadorEmail);
    TableKeyedByEmail();
  }

  /** A padded password does not sign in: passwords are compared as typed. */
  lemma ResolvePaddedPassword()
    ensures ResolveMockUser(MediadorEmail, " 123456") == None
  {
    KeysPlain(MediadorEmail);
    NormalizedWhenPlain(MediadorEmail);
    TableKeyedByEmail();
    assert Table[MediadorEmail].password != " 123456";
  }
}
