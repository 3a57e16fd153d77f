/** The improvement-suggestion schema: details (title, description, up to five attachments)
    and contact information. */
module SuggestionSchema {
  import opened Common

  const MaxAttachments := 5

  datatype ContactInput = ContactInput(
    primaryEmail: string,
    secondaryEmail: Option<string>,
    primaryPhone: string,
    secondaryPhone: Option<string>,
    details: Option<string>,
    primaryPhoneIsWhatsapp: Option<bool>,
    secondaryPhoneIsWhatsapp: Option<bool>)

  datatype SuggestionInput<F> = SuggestionInput(
    title: string,
    description: string,
    attachments: Option<seq<F>>,
    contact: ContactInput)

  /** Parsed contact data: the two WhatsApp flags are always present. */
  datatype Contact = Contact(
    primaryEmail: string,
    secondaryEmail: Option<string>,
    primaryPhone: string,
    secondaryPhone: Option<string>,
    details: Option<string>,
    primaryPhoneIsWhatsapp: bool,
    secondaryPhoneIsWhatsapp: bool)

  datatype Suggestion<F> = Suggestion(
    title: string,
    description: string,
    attachments: Option<seq<F>>,
    contact: Contact)

  datatype SuggestionField =
    TitleField | DescriptionField | AttachmentsField | PrimaryEmailField | SecondaryEmailField | PrimaryPhoneField

  /** The optional second address: absent, empty, or an address. */
  predicate SecondaryEmailOk(e: Option<string>, isEmail: string -> bool) {
    e.None? || e.value == "" || isEmail(e.value)
  }

  ghost predicate Valid<F>(s: Suggestion<F>, isEmail: string -> bool) {
    s.title != "" && s.description != "" &&
    (s.attachments.None? || |s.attachments.value| <= MaxAttachments) &&
    isEmail(s.contact.primaryEmail) && SecondaryEmailOk(s.contact.secondaryEmail, isEmail) &&
    s.contact.primaryPhone != ""
  }

  function Issues<F>(i: SuggestionInput<F>, isEmail: string -> bool): set<SuggestionField> {
    (if i.title == "" then {TitleField} else {}) +
    (if i.description == "" then {DescriptionField} else {}) +
    (if i.attachments.Some? && |i.attachments.value| > MaxAttachments then {AttachmentsField} else {}) +
    (if !isEmail(i.contact.primaryEmail) then {PrimaryEmailField} else {}) +
    (if !SecondaryEmailOk(i.contact.secondaryEmail, isEmail) then {SecondaryEmailField} else {}) +
    (if i.contact.primaryPhone == "" then {PrimaryPhoneField} else {})
  }

  /** Both WhatsApp flags default to false. */
  function ParseContact(c: ContactInput): (r: Contact)
    ensures r.primaryPhoneIsWhatsapp <==> c.primaryPhoneIsWhatsapp == Some(true)
    ensures r.secondaryPhoneIsWhatsapp <==> c.secondaryPhoneIsWhatsapp == Some(true)
  {
    Contact(c.primaryEmail, c.secondaryEmail, c.primaryPhone, c.secondaryPhone, c.details,
            c.primaryPhoneIsWhatsapp.GetOr(false), c.secondaryPhoneIsWhatsapp.GetOr(false))
  }

  /** `suggestionSchema.safeParse`. */
  function Parse<F>(i: SuggestionInput<F>, isEmail: string -> bool): (r: Result<Suggestion<F>, set<SuggestionField>>)
    ensures r.Ok? ==> Valid(r.value, isEmail)
    ensures r.Ok? ==> r.value.title == i.title && r.value.description == i.description &&
                      r.value.attachments == i.attachments && r.value.contact == ParseContact(i.contact)
    ensures r.Ok? <==> Issues(i, isEmail) == {}
    ensures r.Err? ==> r.error == Issues(i, isEmail) && r.error != {}
    ensures r.Err? ==> (TitleField in r.error <==> i.title == "")
    ensures r.Err? ==> (DescriptionField in r.error <==> i.description == "")
    ensures r.Err? ==> (PrimaryEmailField in r.error <==> !isEmail(i.contact.primaryEmail))
    ensures r.Err? ==> (PrimaryPhoneField in r.error <==> i.contact.primaryPhone == "")
    ensures r.Err? ==> (AttachmentsField in r.error <==> i.attachments.Some? && |i.attachments.value| > MaxAttachments)
    ensures r.Err? ==> (SecondaryEmailField in r.error <==>
                          i.contact.secondaryEmail.Some? && i.contact.secondaryEmail.value != "" &&
                          !isEmail(i.contact.secondaryEmail.value))
  {
    var issues := Issues(i, isEmail);
    if issues == {} then Ok(Suggestion(i.title, i.description, i.attachments, ParseContact(i.contact)))
    else Err(issues)
  }

  function Encode<F>(s: Suggestion<F>): SuggestionInput<F> {
    var c := s.contact;
    SuggestionInput(s.title, s.description, s.attachments,
      ContactInput(c.primaryEmail, c.secondaryEmail, c.primaryPhone, c.secondaryPhone, c.details,
                   Some(c.primaryPhoneIsWhatsapp), Some(c.secondaryPhoneIsWhatsapp)))
  }

  /** Valid suggestions parse back to themselves. */
  lemma ParseEncode<F>(s: Suggestion<F>, isEmail: string -> bool)
    requires Valid(s, isEmail)
    ensures Parse(Encode(s), isEmail) == Ok(s)
  {
  }

  /** A valid suggestion sent without the two WhatsApp flags is accepted, with both flags false. */
  lemma ParseDefaultsFlags<F>(s: Suggestion<F>, isEmail: string -> bool)
    requires Valid(s, isEmail)
    ensures var c := Encode(s).contact.(primaryPhoneIsWhatsapp := None, secondaryPhoneIsWhatsapp := None);
            Parse(Encode(s).(contact := c), isEmail)
              == Ok(s.(contact := s.contact.(primaryPhoneIsWhatsapp := false, secondaryPhoneIsWhatsapp := false)))
  {
  }

  /** The optional contact fields may be left out or blank: a minimal contact parses, with both
      flags false. */
  lemma OptionalContactFields<F>(title: string, description: string, email: string, phone: string, isEmail: string -> bool)
    requires title != "" && description != "" && isEmail(email) && phone != ""
    ensures Parse(SuggestionInput<F>.SuggestionInput(title, description, None,
                  ContactInput(email, Some(""), phone, None, Some(""), None, None)), isEmail)
            == Ok(Suggestion(title, description, None, Contact(email, Some(""), phone, None, Some(""), false, false)))
  {
  }
}
