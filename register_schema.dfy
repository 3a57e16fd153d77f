/** The sign-up form schema: field rules plus the cross-field password confirmation. */
module RegisterSchema {
  import opened Common
  import opened AuthApi

  datatype RegisterInput = RegisterInput(
    name: string,
    email: string,
    phone: Option<string>,
    password: string,
    confirmPassword: string,
    userType: Option<string>,
    department: Option<string>,
    specialization: Option<string>,
    agreeToTerms: bool)

  datatype RegisterData = RegisterData(
    name: string,
    email: string,
    phone: Option<string>,
    password: string,
    confirmPassword: string,
    userType: UserType,
    department: Option<string>,
    specialization: Option<string>,
    agreeToTerms: bool)

  /** The path an issue is reported on. */
  datatype RegisterField = NameField | EmailField | PasswordField | ConfirmPasswordField | UserTypeField | TermsField

  const MinPasswordLength := 8

  /** The rules a successfully parsed sign-up satisfies. */
  ghost predicate Valid(d: RegisterData, isEmail: string -> bool) {
    d.name != "" && d.email != "" && isEmail(d.email) &&
    |d.password| >= MinPasswordLength && d.confirmPassword == d.password && d.agreeToTerms
  }

  /** The field-level issues. An unknown user type aborts the object, and zod then skips the
      object-level password refinement; the other field failures leave it running. */
  function FieldIssues(i: RegisterInput, isEmail: string -> bool): set<RegisterField> {
    (if i.name == "" then {NameField} else {}) +
    (if i.email == "" || !isEmail(i.email) then {EmailField} else {}) +
    (if |i.password| < MinPasswordLength then {PasswordField} else {}) +
    (if i.confirmPassword == "" then {ConfirmPasswordField} else {}) +
    (if i.userType.Some? && ParseUserType(i.userType.value).None? then {UserTypeField} else {}) +
    (if !i.agreeToTerms then {TermsField} else {})
  }

  /** `registerSchema.safeParse`. */
  function Parse(i: RegisterInput, isEmail: string -> bool): (r: Result<RegisterData, set<RegisterField>>)
    ensures r.Ok? ==> Valid(r.value, isEmail)
    ensures r.Ok? && i.userType.None? ==> r.value.userType == Comunidade
    ensures r.Ok? && i.userType.Some? ==> ParseUserType(i.userType.value) == Some(r.value.userType)
    ensures r.Ok? ==> r.value.(userType := Comunidade) == ToData(i, Comunidade)
    ensures r.Ok? <==> FieldIssues(i, isEmail) == {} && i.password == i.confirmPassword
    ensures r.Err? ==> r.error != {}
    ensures r.Err? ==> (NameField in r.error <==> i.name == "")
    ensures r.Err? ==> (EmailField in r.error <==> i.email == "" || !isEmail(i.email))
    ensures r.Err? ==> (UserTypeField in r.error <==> i.userType.Some? && ParseUserType(i.userType.value).None?)
    ensures r.Err? ==> (PasswordField in r.error <==> |i.password| < MinPasswordLength)
    ensures r.Err? ==> (TermsField in r.error <==> !i.agreeToTerms)
    ensures r.Err? ==> (ConfirmPasswordField in r.error <==>
                          i.confirmPassword == "" ||
                          (UserTypeField !in r.error && i.password != i.confirmPassword))
  {
    var userType := if i.userType.None? then Some(Comunidade) else ParseUserType(i.userType.value);
    var fields := FieldIssues(i, isEmail);
    var issues :=
      if userType.Some? && i.password != i.confirmPassword then fields + {ConfirmPasswordField} else fields;
    if issues == {} then Ok(ToData(i, userType.value)) else Err(issues)
  }

  function ToData(i: RegisterInput, t: UserType): RegisterData {
    RegisterData(i.name, i.email, i.phone, i.password, i.confirmPassword, t,
                 i.department, i.specialization, i.agreeToTerms)
  }

  function Encode(d: RegisterData): RegisterInput {
    RegisterInput(d.name, d.email, d.phone, d.password, d.confirmPassword, Some(d.userType.Name()),
                  d.department, d.specialization, d.agreeToTerms)
  }

  /** Valid data parses back to itself. */
  lemma ParseEncode(d: RegisterData, isEmail: string -> bool)
    requires Valid(d, isEmail)
    ensures Parse(Encode(d), isEmail) == Ok(d)
  {
    UserTypeNameRoundTrip(d.userType);
  }

  /** A form that leaves out the user type is accepted as a community member. */
  lemma ParseDefaultsUserType(d: RegisterData, isEmail: string -> bool)
    requires Valid(d, isEmail)
    ensures Parse(Encode(d).(userType := None), isEmail) == Ok(d.(userType := Comunidade))
  {
    assert FieldIssues(Encode(d).(userType := None), isEmail) == {};
  }

  /** A mismatched confirmation is reported on the confirmation field even when every field
      is individually well-formed. */
  lemma MismatchReportedOnConfirmation(i: RegisterInput, isEmail: string -> bool)
    requires FieldIssues(i, isEmail) == {} && i.password != i.confirmPassword
    ensures Parse(i, isEmail) == Err({ConfirmPasswordField})
  {
    assert UserTypeField !in FieldIssues(i, isEmail);
    assert i.userType.Some? ==> ParseUserType(i.userType.value).Some?;
    assert FieldIssues(i, isEmail) + {ConfirmPasswordField} == {ConfirmPasswordField};
  }
}
