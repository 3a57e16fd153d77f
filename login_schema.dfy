/** The sign-in form schema: user type (defaulting to community), e-mail and password. */
module LoginSchema {
  import opened Common
  import opened AuthApi

  /** The form values as submitted; an absent user type is `None`. */
  datatype LoginInput = LoginInput(userType: Option<string>, email: string, password: string)

  /** The parsed values. */
  datatype LoginData = LoginData(userType: UserType, email: string, password: string)

  /** The field an issue is reported on. */
  datatype LoginField = UserTypeField | EmailField | PasswordField

  /** The field rules, with `isEmail` standing for zod's `.email()` check. */
  ghost predicate Valid(d: LoginData, isEmail: string -> bool) {
    d.email != "" && isEmail(d.email) && d.password != ""
  }

  /** `loginSchema.safeParse`: every field is checked and all failing fields are reported. */
  function Parse(i: LoginInput, isEmail: string -> bool): (r: Result<LoginData, set<LoginField>>)
    ensures r.Ok? ==> Valid(r.value, isEmail) && r.value.email == i.email && r.value.password == i.password
    ensures r.Ok? && i.userType.None? ==> r.value.userType == Comunidade
    ensures r.Ok? && i.userType.Some? ==> ParseUserType(i.userType.value) == Some(r.value.userType)
    ensures r.Err? ==> r.error != {}
    ensures r.Err? ==> (UserTypeField in r.error <==> i.userType.Some? && ParseUserType(i.userType.value).None?)
    ensures r.Err? ==> (EmailField in r.error <==> i.email == "" || !isEmail(i.email))
    ensures r.Err? ==> (PasswordField in r.error <==> i.password == "")
  {
    var userType := if i.userType.None? then Some(Comunidade) else ParseUserType(i.userType.value);
    var issues :=
      (if userType.None? then {UserTypeField} else {}) +
      (if i.email == "" || !isEmail(i.email) then {EmailField} else {}) +
      (if i.password == "" then {PasswordField} else {});
    if issues == {} then Ok(LoginData(userType.value, i.email, i.password)) else Err(issues)
  }

  /** The form values that encode parsed data. */
  function Encode(d: LoginData): LoginInput {
    LoginInput(Some(d.userType.Name()), d.email, d.password)
  }

  /** Valid data parses back to itself, and a form without a user type signs in as community. */
  lemma ParseEncode(d: LoginData, isEmail: string -> bool)
    requires Valid(d, isEmail)
    ensures Parse(Encode(d), isEmail) == Ok(d)
    ensures Parse(LoginInput(None, d.email, d.password), isEmail) == Ok(d.(userType := Comunidade))
  {
    UserTypeNameRoundTrip(d.userType);
  }

  /** Any non-empty password is accepted: there is no minimum length at sign-in. */
  lemma AnyPasswordAccepted(email: string, password: string, isEmail: string -> bool)
    requires email != "" && isEmail(email) && password != ""
    ensures Parse(LoginInput(None, email, password), isEmail).Ok?
  {
  }
}
