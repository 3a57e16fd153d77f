/** The four-step improvement-suggestion wizard: step navigation gated by each step's field
    validation, the attached-image list, and the progress indicator. */
module SuggestImprovement {
  import opened Common
  import SuggestionSchema

  const TotalSteps := 4
  const MaxImages := 5

  /** The form paths the wizard validates, plus the paths the suggestion schema reports. */
  datatype FormPath =
    | Category | Title | Description
    | LocationAddress | LocationNeighborhood
    | AffectedPeople
    | ContactName | ContactEmail
    | Attachments | ContactPrimaryEmail | ContactSecondaryEmail | ContactPrimaryPhone

  /** The fields `validateStep` triggers for each step; any other step has none. */
  function StepFields(step: int): set<FormPath> {
    if step == 1 then {Category, Title, Description}
    else if step == 2 then {LocationAddress, LocationNeighborhood}
    else if step == 3 then {AffectedPeople}
    else if step == 4 then {ContactName, ContactEmail}
    else {}
  }

  /** `validateStep`: none of the step's fields has an error. */
  predicate StepValid(step: int, errors: set<FormPath>) {
    StepFields(step) * errors == {}
  }

  /** The path the form reports a schema issue on. */
  function IssuePath(f: SuggestionSchema.SuggestionField): FormPath {
    match f
    case TitleField => Title
    case DescriptionField => Description
    case AttachmentsField => Attachments
    case PrimaryEmailField => ContactPrimaryEmail
    case SecondaryEmailField => ContactSecondaryEmail
    case PrimaryPhoneField => ContactPrimaryPhone
  }

  /** The form errors produced by the suggestion schema. */
  function SchemaErrors<F>(i: SuggestionSchema.SuggestionInput<F>, isEmail: string -> bool): set<FormPath> {
    var r := SuggestionSchema.Parse(i, isEmail);
    if r.Ok? then {} else set f | f in r.error :: IssuePath(f)
  }

  /** The schema reports the title and the description exactly when they are empty, and
      nothing on the wizard's other fields. */
  lemma SchemaErrorsFacts<F>(i: SuggestionSchema.SuggestionInput<F>, isEmail: string -> bool)
    ensures Title in SchemaErrors(i, isEmail) <==> i.title == ""
    ensures Description in SchemaErrors(i, isEmail) <==> i.description == ""
    ensures forall p :: p in SchemaErrors(i, isEmail) ==>
      p in {Title, Description, Attachments, ContactPrimaryEmail, ContactSecondaryEmail, ContactPrimaryPhone}
  {
    var r := SuggestionSchema.Parse(i, isEmail);
    if r.Err? {
      assert r.error == SuggestionSchema.Issues(i, isEmail);
      assert SuggestionSchema.TitleField in r.error <==> i.title == "";
      assert SuggestionSchema.DescriptionField in r.error <==> i.description == "";
    }
  }

  /** The schema the form validates against knows only the title and description among the
      wizard's fields, so only step 1 can fail: it fails exactly when the title or the
      description is empty, and steps 2 to 4 always pass. */
  lemma OnlyFirstStepCanFail<F>(i: SuggestionSchema.SuggestionInput<F>, isEmail: string -> bool, step: int)
    ensures step != 1 ==> StepValid(step, SchemaErrors(i, isEmail))
    ensures StepValid(1, SchemaErrors(i, isEmail)) <==> i.title != "" && i.description != ""
  {
    var e := SchemaErrors(i, isEmail);
    SchemaErrorsFacts(i, isEmail);
    if Title in e {
      assert Title in StepFields(1) * e;
    } else if Description in e {
      assert Description in StepFields(1) * e;
    } else {
      assert forall p :: p in StepFields(1) ==> p !in e;
      assert StepFields(1) * e == {};
    }
  }

  /** `Math.round(n / d)` for a non-negative numerator and a positive denominator. */
  function Round(n: nat, d: nat): (r: nat)
    requires d > 0
    ensures 2 * n <= 2 * r * d + d && 2 * r * d <= 2 * n + d
  {
    (2 * n + d) / (2 * d)
  }

  /** The progress label, `Math.round(step / totalSteps * 100)`. */
  function ProgressPercent(step: nat): nat {
    Round(step * 100, TotalSteps)
  }

  /** Each step advances the progress by a quarter: 25, 50, 75 and 100 per cent. */
  lemma ProgressPerStep(step: nat)
    requires 1 <= step <= TotalSteps
    ensures ProgressPercent(step) == 25 * step
    ensures step == TotalSteps ==> ProgressPercent(step) == 100
  {
  }

  /** `images.filter((_, i) => i !== index)`. */
  function Without<F>(s: seq<F>, index: int): (r: seq<F>)
    ensures 0 <= index < |s| ==> |r| == |s| - 1
    ensures !(0 <= index < |s|) ==> r == s
  {
    if 0 <= index < |s| then s[..index] + s[index + 1..] else s
  }

  /** The wizard's state. */
  class SuggestionWizard<F> {
    var step: int
    var images: seq<F>

    ghost predicate Valid()
      reads this
    {
      1 <= step <= TotalSteps && |images| <= MaxImages
    }

    constructor ()
      ensures step == 1 && images == [] && Valid()
    {
      step := 1;
      images := [];
    }

    /** "Previous" is disabled on the first step. */
    predicate PrevDisabled()
      reads this
    {
      step == 1
    }

    /** The last step shows "send" instead of "next". */
    predicate ShowsSubmit()
      reads this
    {
      !(step < TotalSteps)
    }

    /** `nextStep`: advance when the current step validates, never past the last. */
    method NextStep(errors: set<FormPath>)
      requires Valid()
      modifies this
      ensures Valid() && images == old(images)
      ensures StepValid(old(step), errors) ==> step == Min(old(step) + 1, TotalSteps)
      ensures !StepValid(old(step), errors) ==> step == old(step)
    {
      if StepValid(step, errors) {
        step := Min(step + 1, TotalSteps);
      }
    }

    /** `prevStep`: go back, never before the first step. */
    method PrevStep()
      requires Valid()
      modifies this
      ensures Valid() && images == old(images)
      ensures step == Max(old(step) - 1, 1)
    {
      step := Max(step - 1, 1);
    }

    /** `handleImageUpload`: keep the first five files; no file list changes nothing. */
    method HandleImageUpload(files: Option<seq<F>>)
      requires Valid()
      modifies this
      ensures Valid() && step == old(step)
      ensures files.None? ==> images == old(images)
      ensures files.Some? ==> images == files.value[..Min(|files.value|, MaxImages)]
    {
      if files.None? {
        return;
      }
      images := Slice(files.value, 0, MaxImages);
      assert images == files.value[..Min(|files.value|, MaxImages)];
    }

    /** `removeImage`: copy every image except the one at `index`, in order. */
    method RemoveImage(index: int)
      requires Valid()
      modifies this
      ensures Valid() && step == old(step)
      ensures images == Without(old(images), index)
    {
      var current := images;
      var next: seq<F> := [];
      var i := 0;
      while i < |current|
        invariant 0 <= i <= |current|
        invariant 0 <= index < i ==> next == current[..index] + current[index + 1..i]
        invariant !(0 <= index < i) ==> next == current[..i]
      {
        if i != index {
          next := next + [current[i]];
        }
        i := i + 1;
      }
      assert current[..i] == current;
      images := next;
    }
  }

  /** The wizard visits the steps in order: from any step, three "next" clicks on steps without
      errors reach the last step, where "send" is shown, and images are kept. */
  method WalkForward<F>(w: SuggestionWizard<F>)
    requires w.Valid()
    modifies w
    ensures w.Valid() && w.step == TotalSteps && w.ShowsSubmit() && w.images == old(w.images)
  {
    w.NextStep({});
    w.NextStep({});
    w.NextStep({});
  }

  /** From any step, three "previous" clicks reach the first step, where "previous" is
      disabled. */
  method WalkBack<F>(w: SuggestionWizard<F>)
    requires w.Valid()
    modifies w
    ensures w.Valid() && w.step == 1 && w.PrevDisabled() && w.images == old(w.images)
  {
    w.PrevStep();
    w.PrevStep();
    w.PrevStep();
  }

  /** A step with an error on one of its own fields holds the wizard where it is, however
      often "next" is clicked. */
  method StuckOnError<F>(w: SuggestionWizard<F>, errors: set<FormPath>)
    requires w.Valid() && !StepValid(w.step, errors)
    modifies w
    ensures w.step == old(w.step) && w.images == old(w.images)
  {
    w.NextStep(errors);
    w.NextStep(errors);
  }
}
