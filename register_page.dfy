/** The hand-written validation of the user registration page: an error dictionary filled rule
    by rule on submit, and the clearing of one entry while the user types. */
module RegisterPage {
  import opened Text

  /** No white space in `s[from..to]`. */
  predicate NoSpace(s: string, from: int, to: int)
    requires 0 <= from && to <= |s|
  {
    forall k :: from <= k < to ==> !IsSpace(s[k])
  }

  /** `\S+@\S+\.\S+` matches `s` with its `@` at `at` and the `.` after the domain at `dot`:
      the characters next to the match may be anything, so one non-space character before the `@`
      and one after the `.` stand for the two outer runs. */
  predicate LooseMatch(s: string, at: int, dot: int) {
    0 < at && at + 1 < dot && dot + 1 < |s| &&
    s[at] == '@' && s[dot] == '.' && !IsSpace(s[at - 1]) && NoSpace(s, at + 1, dot) &&
    !IsSpace(s[dot + 1])
  }

  /** `/\S+@\S+\.\S+/.test(s)`: the pattern is unanchored, so it matches somewhere in `s`. */
  predicate LooseEmail(s: string) {
    exists at, dot | 0 < at < dot < |s| :: LooseMatch(s, at, dot)
  }

  /** A match of the pattern with its `@` at `at` and the `.` after the domain at `dot`. */
  lemma LooseAt(s: string, at: int, dot: int)
    requires 0 < at && at + 1 < dot && dot + 1 < |s|
    requires s[at] == '@' && s[dot] == '.' && !IsSpace(s[at - 1]) && !IsSpace(s[dot + 1])
    requires forall k :: at < k < dot ==> !IsSpace(s[k])
    ensures LooseEmail(s)
  {
    assert LooseMatch(s, at, dot);
  }

  lemma LooseEmailAcceptsPlain()
    ensures LooseEmail("ana@fatec.br")
  {
    LooseAt("ana@fatec.br", 3, 9);
  }

  /** The pattern is unanchored: white space around the address is accepted... */
  lemma LooseEmailAcceptsPadded()
    ensures LooseEmail("  ana@fatec.br  ")
  {
    LooseAt("  ana@fatec.br  ", 5, 11);
  }

  /** ...and so are other words around it. */
  lemma LooseEmailAcceptsWords()
    ensures LooseEmail("não é @ um e@mail.x")
  {
    LooseAt("não é @ um e@mail.x", 12, 17);
  }

  /** An address without a dot after the `@` does not match. */
  lemma LooseEmailNeedsDot()
    ensures !LooseEmail("ana@fatec")
  {
    var t := "ana@fatec";
    assert forall k | 0 <= k < |t| :: t[k] != '.';
  }

  /** White space right before the only `@` does not match. */
  lemma LooseEmailNeedsLocalPart()
    ensures !LooseEmail("ana @fatec.br")
  {
    var u := "ana @fatec.br";
    assert forall k | 0 <= k < |u| && k != 4 :: u[k] != '@';
    assert IsSpace(u[3]);
  }

  /** The keys of the error dictionary: `name`, `email`, `phone`, `password`, `confirmPassword`
      and `terms`. */
  datatype ErrorKey = NameKey | EmailKey | PhoneKey | PasswordKey | ConfirmPasswordKey | TermsKey

  const NameRequired := "Nome completo é obrigatório"
  const EmailRequired := "Email é obrigatório"
  const EmailInvalid := "Email inválido"
  const PasswordRequired := "Senha é obrigatória"
  const PasswordTooShort := "Senha deve ter pelo menos 8 caracteres"
  const PasswordsDiffer := "Senhas não coincidem"
  const TermsRequired := "Você deve aceitar os termos e condições"

  const MinPasswordLength := 8

  datatype FormData = FormData(
    name: string,
    email: string,
    phone: string,
    password: string,
    confirmPassword: string,
    agreeToTerms: bool)

  const EmptyForm := FormData("", "", "", "", "", false)

  /** The five text inputs; each writes the form field of the same name. */
  datatype TextField = NameField | EmailField | PhoneField | PasswordField | ConfirmPasswordField {
    function Key(): ErrorKey {
      match this
      case NameField => NameKey
      case EmailField => EmailKey
      case PhoneField => PhoneKey
      case PasswordField => PasswordKey
      case ConfirmPasswordField => ConfirmPasswordKey
    }
  }

  /** `{ ...prev, [field]: value }`. */
  function WithField(f: FormData, field: TextField, value: string): (r: FormData)
    ensures r.agreeToTerms == f.agreeToTerms
    ensures field == NameField ==> r == f.(name := value)
    ensures field == EmailField ==> r == f.(email := value)
    ensures field == PhoneField ==> r == f.(phone := value)
    ensures field == PasswordField ==> r == f.(password := value)
    ensures field == ConfirmPasswordField ==> r == f.(confirmPassword := value)
  {
    match field
    case NameField => f.(name := value)
    case EmailField => f.(email := value)
    case PhoneField => f.(phone := value)
    case PasswordField => f.(password := value)
    case ConfirmPasswordField => f.(confirmPassword := value)
  }

  /** The dictionary `handleSubmit` builds for `f`, rule by rule. */
  function Errors(f: FormData): map<ErrorKey, string> {
    var name := if Blank(f.name) then map[NameKey := NameRequired] else map[];
    var email :=
      if Blank(f.email) then name[EmailKey := EmailRequired]
      else if !LooseEmail(f.email) then name[EmailKey := EmailInvalid]
      else name;
    var password :=
      if f.password == "" then email[PasswordKey := PasswordRequired]
      else if |f.password| < MinPasswordLength then email[PasswordKey := PasswordTooShort]
      else email;
    var confirm := if f.password != f.confirmPassword then password[ConfirmPasswordKey := PasswordsDiffer] else password;
    if !f.agreeToTerms then confirm[TermsKey := TermsRequired] else confirm
  }

  /** Each rule contributes its key exactly when it fails, with its message, and nothing else is
      reported: the phone is never checked. */
  lemma ErrorsSpec(f: FormData)
    ensures Errors(f).Keys <= {NameKey, EmailKey, PasswordKey, ConfirmPasswordKey, TermsKey}
    ensures NameKey in Errors(f) <==> Blank(f.name)
    ensures EmailKey in Errors(f) <==> Blank(f.email) || !LooseEmail(f.email)
    ensures PasswordKey in Errors(f) <==> |f.password| < MinPasswordLength
    ensures ConfirmPasswordKey in Errors(f) <==> f.password != f.confirmPassword
    ensures TermsKey in Errors(f) <==> !f.agreeToTerms
    ensures NameKey in Errors(f) ==> Errors(f)[NameKey] == NameRequired
    ensures EmailKey in Errors(f) ==>
      Errors(f)[EmailKey] == (if Blank(f.email) then EmailRequired else EmailInvalid)
    ensures PasswordKey in Errors(f) ==>
      Errors(f)[PasswordKey] == (if f.password == "" then PasswordRequired else PasswordTooShort)
    ensures ConfirmPasswordKey in Errors(f) ==> Errors(f)[ConfirmPasswordKey] == PasswordsDiffer
    ensures TermsKey in Errors(f) ==> Errors(f)[TermsKey] == TermsRequired
  {
  }

  /** The rules of `handleSubmit`, each independent of the others. The name and the emptiness of
      the email are judged after trimming; the email pattern, the password and its confirmation
      are judged as typed. */
  method Validate(f: FormData) returns (errors: map<ErrorKey, string>)
    ensures errors == Errors(f)
    ensures errors.Keys <= {NameKey, EmailKey, PasswordKey, ConfirmPasswordKey, TermsKey}
    ensures NameKey in errors <==> Blank(f.name)
    ensures EmailKey in errors <==> Blank(f.email) || !LooseEmail(f.email)
    ensures PasswordKey in errors <==> |f.password| < MinPasswordLength
    ensures ConfirmPasswordKey in errors <==> f.password != f.confirmPassword
    ensures TermsKey in errors <==> !f.agreeToTerms
    ensures NameKey in errors ==> errors[NameKey] == NameRequired
    ensures EmailKey in errors ==>
      errors[EmailKey] == (if Blank(f.email) then EmailRequired else EmailInvalid)
    ensures PasswordKey in errors ==>
      errors[PasswordKey] == (if f.password == "" then PasswordRequired else PasswordTooShort)
    ensures ConfirmPasswordKey in errors ==> errors[ConfirmPasswordKey] == PasswordsDiffer
    ensures TermsKey in errors ==> errors[TermsKey] == TermsRequired
  {
    errors := map[];
    if Blank(f.name) {
      errors := errors[NameKey := NameRequired];
    }
    if Blank(f.email) {
      errors := errors[EmailKey := EmailRequired];
    } else if !LooseEmail(f.email) {
      errors := errors[EmailKey := EmailInvalid];
    }
    if f.password == "" {
      errors := errors[PasswordKey := PasswordRequired];
    } else if |f.password| < MinPasswordLength {
      errors := errors[PasswordKey := PasswordTooShort];
    }
    if f.password != f.confirmPassword {
      errors := errors[ConfirmPasswordKey := PasswordsDiffer];
    }
    if !f.agreeToTerms {
      errors := errors[TermsKey := TermsRequired];
    }
    ErrorsSpec(f);
  }

  /** The conditions under which the page goes on to register the user. */
  ghost predicate Acceptable(f: FormData) {
    !Blank(f.name) && !Blank(f.email) && LooseEmail(f.email) &&
    |f.password| >= MinPasswordLength && f.password == f.confirmPassword && f.agreeToTerms
  }

  /** A form the page accepts: the email keeps its surrounding spaces and the phone is never
      checked. */
  lemma AcceptsUntrimmedEmail()
    ensures Acceptable(FormData(" Ana ", "  ana@fatec.br  ", "", "12345678", "12345678", true))
  {
    var e := "  ana@fatec.br  ";
    LooseAt(e, 5, 11);
    assert !IsSpace(" Ana "[1]) && !IsSpace(e[2]);
    BlankAllSpace(" Ana ");
    BlankAllSpace(e);
  }

  /** A name made of spaces is rejected although it is not empty. */
  lemma BlankNameRejected(f: FormData)
    requires |f.name| > 0 && forall k | 0 <= k < |f.name| :: f.name[k] == ' '
    ensures f.name != "" && Trim(f.name) == "" && !Acceptable(f)
  {
    BlankAllSpace(f.name);
    BlankIffTrimEmpty(f.name);
  }

  /** The state of the page: the form and the error dictionary shown under the inputs. An entry
      holding the empty string is shown as no error. */
  class RegisterForm {
    var data: FormData
    var errors: map<ErrorKey, string>

    constructor ()
      ensures data == EmptyForm && errors == map[]
    {
      data := EmptyForm;
      errors := map[];
    }

    /** The error shown under the input with key `key`, if any. */
    predicate Shows(key: ErrorKey)
      reads this
    {
      key in errors && errors[key] != ""
    }

    /** `handleSubmit`: a non-empty dictionary replaces the displayed errors and stops the
        submission; an empty one lets it proceed and leaves the displayed errors as they were. */
    method HandleSubmit() returns (proceeds: bool)
      modifies this
      ensures data == old(data)
      ensures proceeds <==> Acceptable(data)
      ensures !proceeds ==> errors == Errors(data)
      ensures !proceeds ==> errors.Keys != {} && forall key | key in errors :: errors[key] != ""
      ensures !proceeds ==> (Shows(NameKey) <==> Blank(data.name)) && (Shows(TermsKey) <==> !data.agreeToTerms)
      ensures !proceeds ==> (Shows(ConfirmPasswordKey) <==> data.password != data.confirmPassword)
      ensures proceeds ==> errors == old(errors)
    {
      var found := Validate(data);
      if found.Keys != {} {
        errors := found;
        proceeds := false;
        assert !Acceptable(data) by {
          var key :| key in found;
        }
      } else {
        proceeds := true;
        assert NameKey !in found && EmailKey !in found && PasswordKey !in found;
        assert ConfirmPasswordKey !in found && TermsKey !in found;
      }
    }

    /** `handleInputChange(field)`: the typed value replaces the field, and an error shown for
        that field is blanked. */
    method HandleInputChange(field: TextField, value: string)
      modifies this
      ensures data == WithField(old(data), field, value)
      ensures errors == if old(Shows(field.Key())) then old(errors)[field.Key() := ""] else old(errors)
      ensures !Shows(field.Key())
      ensures forall key | key != field.Key() :: Shows(key) == old(Shows(key))
    {
      data := WithField(data, field, value);
      if Shows(field.Key()) {
        errors := errors[field.Key() := ""];
      }
    }

    /** The terms checkbox: the flag is replaced and a shown terms error is blanked. */
    method HandleTermsChange(checked: bool)
      modifies this
      ensures data == old(data).(agreeToTerms := checked)
      ensures errors == if old(Shows(TermsKey)) then old(errors)[TermsKey := ""] else old(errors)
      ensures !Shows(TermsKey)
      ensures forall key | key != TermsKey :: Shows(key) == old(Shows(key))
    {
      data := data.(agreeToTerms := checked);
      if Shows(TermsKey) {
        errors := errors[TermsKey := ""];
      }
    }
  }

  /** A filled-in form the page accepts. */
  const Filled := FormData("Ana", "ana@fatec.br", "", "12345679", "12345679", true)

  lemma FilledAcceptable()
    ensures Acceptable(Filled)
  {
    LooseAt("ana@fatec.br", 3, 9);
    assert !IsSpace("Ana"[0]) && !IsSpace("ana@fatec.br"[0]);
  }

  /** After a rejected submission, correcting the password field alone leaves the mismatch
      message under the confirmation, and a successful submission does not remove it. */
  method StaleMismatchMessage() returns (form: RegisterForm, shown: bool)
    ensures shown && Acceptable(form.data) && form.Shows(ConfirmPasswordKey)
  {
    FilledAcceptable();
    form := new RegisterForm();
    form.HandleInputChange(NameField, Filled.name);
    form.HandleInputChange(EmailField, Filled.email);
    form.HandleInputChange(PasswordField, "12345678");
    form.HandleInputChange(ConfirmPasswordField, Filled.confirmPassword);
    form.HandleTermsChange(true);
    assert form.data == Filled.(password := "12345678");
    var first := form.HandleSubmit();
    assert !first && form.Shows(ConfirmPasswordKey);
    form.HandleInputChange(PasswordField, Filled.password);
    assert form.data == Filled && form.Shows(ConfirmPasswordKey);
    var second := form.HandleSubmit();
    shown := second && form.Shows(ConfirmPasswordKey);
  }
}
