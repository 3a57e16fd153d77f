/** The idea form validated by Formik: three required fields and an anchored, case-insensitive
    email pattern, checked on the values exactly as typed. */
module SimpleForm {
  import opened Common
  import RegisterPage

  predicate Letter(c: char) {
    ('A' <= c <= 'Z') || ('a' <= c <= 'z')
  }

  predicate Digit(c: char) {
    '0' <= c <= '9'
  }

  /** `[A-Z0-9._%+-]` under the `i` flag. */
  predicate LocalChar(c: char) {
    Letter(c) || Digit(c) || c == '.' || c == '_' || c == '%' || c == '+' || c == '-'
  }

  /** `[A-Z0-9.-]` under the `i` flag. */
  predicate DomainChar(c: char) {
    Letter(c) || Digit(c) || c == '.' || c == '-'
  }

  predicate LocalRun(s: string, from: int, to: int)
    requires 0 <= from && to <= |s|
  {
    forall k :: from <= k < to ==> LocalChar(s[k])
  }

  predicate DomainRun(s: string, from: int, to: int)
    requires 0 <= from && to <= |s|
  {
    forall k :: from <= k < to ==> DomainChar(s[k])
  }

  predicate LetterRun(s: string, from: int, to: int)
    requires 0 <= from && to <= |s|
  {
    forall k :: from <= k < to ==> Letter(s[k])
  }

  /** `^[A-Z0-9._%+-]+@[A-Z0-9.-]+\.[A-Z]{2,}$` with the `@` at `at` and the `.` before the
      top-level domain at `dot`: every character of `s` belongs to the match. */
  predicate StrictMatch(s: string, at: int, dot: int) {
    0 < at && at + 1 < dot && dot + 3 <= |s| &&
    s[at] == '@' && s[dot] == '.' &&
    LocalRun(s, 0, at) && DomainRun(s, at + 1, dot) && LetterRun(s, dot + 1, |s|)
  }

  /** `/^[A-Z0-9._%+-]+@[A-Z0-9.-]+\.[A-Z]{2,}$/i.test(s)`. */
  predicate StrictEmail(s: string) {
    exists at, dot | 0 < at < dot < |s| :: StrictMatch(s, at, dot)
  }

  /** Every address the anchored pattern accepts is accepted by the registration page's
      unanchored pattern. */
  lemma StrictImpliesLoose(s: string)
    requires StrictEmail(s)
    ensures RegisterPage.LooseEmail(s)
  {
    var at, dot :| 0 < at < dot < |s| && StrictMatch(s, at, dot);
    assert LocalChar(s[at - 1]);
    assert Letter(s[dot + 1]);
    assert forall k :: at < k < dot ==> DomainChar(s[k]);
    RegisterPage.LooseAt(s, at, dot);
  }

  /** The converse fails: a one-letter top-level domain, a non-ASCII letter and surrounding
      spaces all pass the unanchored pattern only. */
  lemma LooseNotStrict()
    ensures RegisterPage.LooseEmail("a@b.c") && !StrictEmail("a@b.c")
    ensures RegisterPage.LooseEmail("joão@fatec.br") && !StrictEmail("joão@fatec.br")
  {
    RegisterPage.LooseAt("a@b.c", 1, 3);
    RegisterPage.LooseAt("joão@fatec.br", 4, 10);
    assert !LocalChar("joão@fatec.br"[2]);
  }

  lemma SpacesNotStrict()
    ensures RegisterPage.LooseEmail(" ana@fatec.br") && !StrictEmail(" ana@fatec.br")
  {
    RegisterPage.LooseAt(" ana@fatec.br", 4, 10);
    assert !LocalChar(" ana@fatec.br"[0]);
  }

  lemma StrictExample()
    ensures StrictEmail("Ana.Silva@fatec.sp.gov.br")
  {
    var s := "Ana.Silva@fatec.sp.gov.br";
    assert StrictMatch(s, 9, 22);
  }

  datatype FormValues = FormValues(title: string, description: string, email: string)

  const InitialValues := FormValues("", "", "")

  datatype FormKey = TitleKey | DescriptionKey | EmailKey

  const TitleRequired := "Título obrigatório"
  const DescriptionRequired := "Descrição obrigatória"
  const EmailRequired := "Email obrigatório"
  const EmailInvalid := "Email inválido"

  /** The page `onSubmit` navigates to. */
  const AfterSubmitPath := "/acompanhar-projetos"

  /** The values Formik lets through to `onSubmit`. */
  ghost predicate Accepted(v: FormValues) {
    v.title != "" && v.description != "" && StrictEmail(v.email)
  }

  /** The `validate` callback. */
  method Validate(v: FormValues) returns (errors: map<FormKey, string>)
    ensures TitleKey in errors <==> v.title == ""
    ensures DescriptionKey in errors <==> v.description == ""
    ensures EmailKey in errors <==> !StrictEmail(v.email)
    ensures TitleKey in errors ==> errors[TitleKey] == TitleRequired
    ensures DescriptionKey in errors ==> errors[DescriptionKey] == DescriptionRequired
    ensures EmailKey in errors ==> errors[EmailKey] == (if v.email == "" then EmailRequired else EmailInvalid)
    ensures errors == map[] <==> Accepted(v)
  {
    errors := map[];
    if v.title == "" {
      errors := errors[TitleKey := TitleRequired];
    }
    if v.description == "" {
      errors := errors[DescriptionKey := DescriptionRequired];
    }
    if v.email == "" {
      errors := errors[EmailKey := EmailRequired];
    } else if !StrictEmail(v.email) {
      errors := errors[EmailKey := EmailInvalid];
    }
    if errors != map[] {
      ghost var key :| key in errors;
    } else {
      assert TitleKey !in errors && DescriptionKey !in errors && EmailKey !in errors;
    }
  }

  /** Formik's submit: `onSubmit` runs, and navigates, only when `validate` reports nothing. */
  method Submit(v: FormValues) returns (errors: map<FormKey, string>, navigateTo: Option<string>)
    ensures navigateTo.Some? <==> Accepted(v)
    ensures navigateTo.Some? ==> navigateTo.value == AfterSubmitPath && errors == map[]
    ensures navigateTo.None? ==> errors != map[]
  {
    errors := Validate(v);
    if errors == map[] {
      navigateTo := Some(AfterSubmitPath);
    } else {
      navigateTo := None;
    }
  }

  /** Nothing is trimmed: fields made of spaces are filled in. */
  lemma SpacesFillFields()
    ensures Accepted(FormValues(" ", " ", "a@b.co"))
  {
    assert StrictMatch("a@b.co", 1, 3);
  }
}
