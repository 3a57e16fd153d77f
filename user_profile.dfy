/** The user-profile API: `POST` creates the profile row after sign-up, `PATCH` updates the
    signed-in user's phone number. The database and the authentication service are replaced by
    their outcomes, given as parameters. */
module UserProfile {
  import opened Common
  import opened Text
  import UseAuth

  /** The profile names the back end stores. */
  const CapitalizedRoles: seq<string> := ["Comunidade", "Mediador", "Coordenacao", "Estudante"]

  /** The role spellings `userProfileSchema` accepts: the four profiles, capitalised or not. */
  const RoleSpellings: seq<string> :=
    CapitalizedRoles + ["comunidade", "mediador", "coordenacao", "estudante"]

  /** `capitalizeRole`: a known spelling becomes its capitalised form; anything else is kept. */
  function CapitalizeRole(role: string): (r: string)
    ensures role in RoleSpellings ==> r in CapitalizedRoles && ToLower(r) == ToLower(role)
    ensures role !in RoleSpellings ==> r == role
  {
    if role == "comunidade" || role == "Comunidade" then "Comunidade"
    else if role == "mediador" || role == "Mediador" then "Mediador"
    else if role == "coordenacao" || role == "Coordenacao" then "Coordenacao"
    else if role == "estudante" || role == "Estudante" then "Estudante"
    else role
  }

  /** Capitalising twice is capitalising once, and capitalised names are kept. */
  lemma CapitalizeRoleIdempotent(role: string)
    ensures CapitalizeRole(CapitalizeRole(role)) == CapitalizeRole(role)
    ensures role in CapitalizedRoles ==> CapitalizeRole(role) == role
  {
    var r := CapitalizeRole(role);
    if role in CapitalizedRoles {
      assert role == "Comunidade" || role == "Mediador" || role == "Coordenacao" || role == "Estudante";
    }
    if r in CapitalizedRoles {
      assert r == "Comunidade" || r == "Mediador" || r == "Coordenacao" || r == "Estudante";
    } else {
      assert role !in RoleSpellings;
    }
  }

  /** Each front-end role is an accepted spelling and comes out as the profile name whose
      lower-case form it is. */
  lemma CapitalizeFrontEndRole(r: UseAuth.Role)
    ensures r.Name() in RoleSpellings
    ensures ToLower(CapitalizeRole(r.Name())) == r.Name()
  {
    assert RoleSpellings[4] == "comunidade" && RoleSpellings[5] == "mediador";
    assert RoleSpellings[6] == "coordenacao" && RoleSpellings[7] == "estudante";
    LowerCaseFixed(r.Name());
  }

  /** The body of a `POST`. */
  datatype ProfileInput = ProfileInput(name: string, email: string, phone: Option<string>, role: string)

  datatype ProfileIssue = NameIssue | EmailIssue | RoleIssue

  /** `userProfileSchema.safeParse`, reduced to its issues. */
  function ProfileIssues(i: ProfileInput, isEmail: string -> bool): (r: set<ProfileIssue>)
    ensures r == {} <==> i.name != "" && i.email != "" && isEmail(i.email) && i.role in RoleSpellings
    ensures RoleIssue in r <==> i.role !in RoleSpellings
  {
    (if i.name == "" then {NameIssue} else {}) +
    (if i.email == "" || !isEmail(i.email) then {EmailIssue} else {}) +
    (if i.role !in RoleSpellings then {RoleIssue} else {})
  }

  /** A row of the `usuario` table. */
  datatype Row = Row(nome: string, email: string, telefone: string, telefoneIsWhats: bool, ativo: bool, perfil: string)

  datatype PostOutcome = PostBadRequest(issues: set<ProfileIssue>) | InsertFailed | Created(row: Row)

  /** `POST /api/user-profile`; `insertOk` is whether the database accepted the row. */
  function Post(i: ProfileInput, isEmail: string -> bool, insertOk: bool): (r: PostOutcome)
    ensures r.PostBadRequest? <==> ProfileIssues(i, isEmail) != {}
    ensures r.PostBadRequest? ==> r.issues != {}
    ensures r.InsertFailed? <==> ProfileIssues(i, isEmail) == {} && !insertOk
    ensures r.Created? ==> r.row.nome == i.name && r.row.email == i.email && i.email != "" && isEmail(i.email)
    ensures r.Created? ==> r.row.telefone == i.phone.GetOr("") && !r.row.telefoneIsWhats && r.row.ativo
    ensures r.Created? ==> r.row.perfil in CapitalizedRoles && ToLower(r.row.perfil) == ToLower(i.role)
  {
    var issues := ProfileIssues(i, isEmail);
    if issues != {} then PostBadRequest(issues)
    else if !insertOk then InsertFailed
    else Created(Row(i.name, i.email, i.phone.GetOr(""), false, true, CapitalizeRole(i.role)))
  }

  /** The body of a `PATCH`. */
  datatype PhoneInput = PhoneInput(phone: string, phoneIsWhats: Option<bool>)

  datatype PhoneIssue = PhoneTooShort | PhoneTooLong

  const MinPhone := 10
  const MaxPhone := 11

  /** The columns a `PATCH` writes; the WhatsApp column only when the flag was sent. */
  datatype UpdateData = UpdateData(telefone: string, telefoneIsWhats: Option<bool>)

  /** The phone data mirrored into the authentication metadata. */
  datatype Metadata = Metadata(phone: string, phoneIsWhats: bool)

  datatype PatchOutcome =
    | PatchBadRequest(issues: set<PhoneIssue>)
    | Unauthorized
    | UpdateFailed
    | Updated(email: string, update: UpdateData, metadata: Metadata)

  /** `PATCH /api/user-profile`. `authEmail` is the address of the signed-in user (`None` when
      there is none or the lookup failed), and `updateOk` whether the database update succeeded. */
  method Patch(body: PhoneInput, authEmail: Option<string>, updateOk: bool) returns (out: PatchOutcome)
    ensures out.PatchBadRequest? <==> !(MinPhone <= |body.phone| <= MaxPhone)
    ensures out.PatchBadRequest? ==> out.issues != {}
    ensures out.Unauthorized? <==> MinPhone <= |body.phone| <= MaxPhone && authEmail.None?
    ensures out.UpdateFailed? <==> MinPhone <= |body.phone| <= MaxPhone && authEmail.Some? && !updateOk
    ensures out.Updated? ==> authEmail == Some(out.email)
    ensures out.Updated? ==> out.update.telefone == body.phone && out.update.telefoneIsWhats == body.phoneIsWhats
    ensures out.Updated? ==> out.metadata == Metadata(body.phone, body.phoneIsWhats.GetOr(false))
  {
    var issues: set<PhoneIssue> := {};
    if |body.phone| < MinPhone {
      issues := issues + {PhoneTooShort};
    }
    if |body.phone| > MaxPhone {
      issues := issues + {PhoneTooLong};
    }
    if issues != {} {
      return PatchBadRequest(issues);
    }
    if authEmail.None? {
      return Unauthorized;
    }
    var updateData := UpdateData(body.phone, None);
    if body.phoneIsWhats.Some? {
      updateData := updateData.(telefoneIsWhats := body.phoneIsWhats);
    }
    if !updateOk {
      return UpdateFailed;
    }
    out := Updated(authEmail.value, updateData, Metadata(body.phone, body.phoneIsWhats.GetOr(false)));
  }
}
