/** The project enumerations and the project-list filter schema. */
module FiltersSchema {
  import opened Common
  import opened Text
  import Listing

  datatype ProjectStatus = EmAnalise | EmDesenvolvimento | Testando | Concluido | Suspenso {
    function Name(): string {
      match this
      case EmAnalise => "em_analise"
      case EmDesenvolvimento => "em_desenvolvimento"
      case Testando => "testando"
      case Concluido => "concluido"
      case Suspenso => "suspenso"
    }
  }

  datatype Priority = Baixa | Media | Alta | Urgente {
    function Name(): string {
      match this
      case Baixa => "baixa"
      case Media => "media"
      case Alta => "alta"
      case Urgente => "urgente"
    }
  }

  datatype Category = Infraestrutura | Seguranca | Ambiente | Transporte | Saude | Educacao | Tecnologia | Outros {
    function Name(): string {
      match this
      case Infraestrutura => "infraestrutura"
      case Seguranca => "seguranca"
      case Ambiente => "ambiente"
      case Transporte => "transporte"
      case Saude => "saude"
      case Educacao => "educacao"
      case Tecnologia => "tecnologia"
      case Outros => "outros"
    }
  }

  function ParseStatus(s: string): (r: Option<ProjectStatus>)
    ensures r.Some? ==> r.value.Name() == s
    ensures r.None? ==> forall v: ProjectStatus :: v.Name() != s
  {
    if s == "em_analise" then Some(EmAnalise)
    else if s == "em_desenvolvimento" then Some(EmDesenvolvimento)
    else if s == "testando" then Some(Testando)
    else if s == "concluido" then Some(Concluido)
    else if s == "suspenso" then Some(Suspenso)
    else None
  }

  function ParsePriority(s: string): (r: Option<Priority>)
    ensures r.Some? ==> r.value.Name() == s
    ensures r.None? ==> forall v: Priority :: v.Name() != s
  {
    if s == "baixa" then Some(Baixa)
    else if s == "media" then Some(Media)
    else if s == "alta" then Some(Alta)
    else if s == "urgente" then Some(Urgente)
    else None
  }

  function ParseCategory(s: string): (r: Option<Category>)
    ensures r.Some? ==> r.value.Name() == s
    ensures r.None? ==> forall v: Category :: v.Name() != s
  {
    if s == "infraestrutura" then Some(Infraestrutura)
    else if s == "seguranca" then Some(Seguranca)
    else if s == "ambiente" then Some(Ambiente)
    else if s == "transporte" then Some(Transporte)
    else if s == "saude" then Some(Saude)
    else if s == "educacao" then Some(Educacao)
    else if s == "tecnologia" then Some(Tecnologia)
    else if s == "outros" then Some(Outros)
    else None
  }

  /** Every enumeration value parses back from its name, and no name is the empty string, so
      `''` is free to mean "no filter". */
  lemma NamesRoundTrip(s: ProjectStatus, p: Priority, c: Category)
    ensures ParseStatus(s.Name()) == Some(s) && s.Name() != ""
    ensures ParsePriority(p.Name()) == Some(p) && p.Name() != ""
    ensures ParseCategory(c.Name()) == Some(c) && c.Name() != ""
  {
  }

  const MaxSearch := 100
  const MinSearch := 2

  /** The filter form as submitted; absent fields take their defaults. */
  datatype FiltersInput = FiltersInput(
    status: Option<string>,
    category: Option<string>,
    priority: Option<string>,
    search: Option<string>)

  /** Parsed filters; `None` is the `''` choice, "any". */
  datatype Filters = Filters(
    status: Option<ProjectStatus>,
    category: Option<Category>,
    priority: Option<Priority>,
    search: string)

  datatype FilterIssue = BadStatus | BadCategory | BadPriority | SearchTooLong | SearchTooShort

  /** `SelectWithEmpty`: `''` or a member of the enumeration. */
  function SelectWithEmpty<E>(v: string, parsed: Option<E>): Option<Option<E>> {
    if v == "" then Some(None)
    else if parsed.Some? then Some(parsed)
    else None
  }

  /** The rules parsed filters satisfy: the search is trimmed, at most 100 characters, and
      either empty or at least 2 characters long. */
  predicate Valid(f: Filters) {
    Trim(f.search) == f.search && |f.search| <= MaxSearch && (f.search == "" || |f.search| >= MinSearch)
  }

  /** Each field's issue, reported independently of the others. */
  function Issues(i: FiltersInput): (r: set<FilterIssue>)
    ensures BadStatus in r <==> SelectWithEmpty(i.status.GetOr(""), ParseStatus(i.status.GetOr(""))).None?
    ensures BadCategory in r <==> SelectWithEmpty(i.category.GetOr(""), ParseCategory(i.category.GetOr(""))).None?
    ensures BadPriority in r <==> SelectWithEmpty(i.priority.GetOr(""), ParsePriority(i.priority.GetOr(""))).None?
    ensures SearchTooLong in r <==> |Trim(i.search.GetOr(""))| > MaxSearch
    ensures SearchTooShort in r <==> |Trim(i.search.GetOr(""))| == 1
  {
    var search := Trim(i.search.GetOr(""));
    (if SelectWithEmpty(i.status.GetOr(""), ParseStatus(i.status.GetOr(""))).None? then {BadStatus} else {}) +
    (if SelectWithEmpty(i.category.GetOr(""), ParseCategory(i.category.GetOr(""))).None? then {BadCategory} else {}) +
    (if SelectWithEmpty(i.priority.GetOr(""), ParsePriority(i.priority.GetOr(""))).None? then {BadPriority} else {}) +
    (if |search| > MaxSearch then {SearchTooLong} else {}) +
    (if search != "" && |search| < MinSearch then {SearchTooShort} else {})
  }

  /** `projectsFiltersSchema.safeParse`. */
  function Parse(i: FiltersInput): (r: Result<Filters, set<FilterIssue>>)
    ensures r.Ok? ==> Valid(r.value) && r.value.search == Trim(i.search.GetOr(""))
    ensures r.Err? ==> r.error == Issues(i) && r.error != {}
  {
    TrimIdempotent(i.search.GetOr(""));
    var issues := Issues(i);
    if issues == {} then
      Ok(Filters(SelectWithEmpty(i.status.GetOr(""), ParseStatus(i.status.GetOr(""))).value,
                 SelectWithEmpty(i.category.GetOr(""), ParseCategory(i.category.GetOr(""))).value,
                 SelectWithEmpty(i.priority.GetOr(""), ParsePriority(i.priority.GetOr(""))).value,
                 Trim(i.search.GetOr(""))))
    else Err(issues)
  }

  /** The selects: an absent or empty choice means "any", a known name its value, and anything
      else is reported as an issue on that field. */
  lemma ParseSelects(i: FiltersInput)
    ensures Parse(i).Ok? && (i.status.None? || i.status.value == "") ==> Parse(i).value.status.None?
    ensures Parse(i).Ok? && i.status.Some? && i.status.value != "" ==>
              Parse(i).value.status.Some? && Parse(i).value.status.value.Name() == i.status.value
    ensures Parse(i).Ok? && (i.category.None? || i.category.value == "") ==> Parse(i).value.category.None?
    ensures Parse(i).Ok? && i.category.Some? && i.category.value != "" ==>
              Parse(i).value.category.Some? && Parse(i).value.category.value.Name() == i.category.value
    ensures Parse(i).Ok? && (i.priority.None? || i.priority.value == "") ==> Parse(i).value.priority.None?
    ensures Parse(i).Ok? && i.priority.Some? && i.priority.value != "" ==>
              Parse(i).value.priority.Some? && Parse(i).value.priority.value.Name() == i.priority.value
    ensures BadStatus in Issues(i) <==> i.status.Some? && i.status.value != "" && ParseStatus(i.status.value).None?
    ensures BadCategory in Issues(i) <==> i.category.Some? && i.category.value != "" && ParseCategory(i.category.value).None?
    ensures BadPriority in Issues(i) <==> i.priority.Some? && i.priority.value != "" && ParsePriority(i.priority.value).None?
  {
  }

  function StatusName(o: Option<ProjectStatus>): string { if o.Some? then o.value.Name() else "" }
  function CategoryName(o: Option<Category>): string { if o.Some? then o.value.Name() else "" }
  function PriorityName(o: Option<Priority>): string { if o.Some? then o.value.Name() else "" }

  lemma SelectStatusName(o: Option<ProjectStatus>)
    ensures SelectWithEmpty(StatusName(o), ParseStatus(StatusName(o))) == Some(o)
  {
    if o.Some? { NamesRoundTrip(o.value, Baixa, Outros); }
  }

  lemma SelectCategoryName(o: Option<Category>)
    ensures SelectWithEmpty(CategoryName(o), ParseCategory(CategoryName(o))) == Some(o)
  {
    if o.Some? { NamesRoundTrip(EmAnalise, Baixa, o.value); }
  }

  lemma SelectPriorityName(o: Option<Priority>)
    ensures SelectWithEmpty(PriorityName(o), ParsePriority(PriorityName(o))) == Some(o)
  {
    if o.Some? { NamesRoundTrip(EmAnalise, o.value, Outros); }
  }

  /** The form values for parsed filters. */
  function Encode(f: Filters): FiltersInput {
    FiltersInput(Some(StatusName(f.status)), Some(CategoryName(f.category)), Some(PriorityName(f.priority)), Some(f.search))
  }

  /** Valid filters parse back to themselves. */
  lemma ParseEncode(f: Filters)
    requires Valid(f)
    ensures Parse(Encode(f)) == Ok(f)
  {
    SelectStatusName(f.status);
    SelectCategoryName(f.category);
    SelectPriorityName(f.priority);
    assert Issues(Encode(f)) == {};
  }

  /** Every field defaults to "any": the empty form parses to no filter at all. */
  lemma ParseEmptyForm()
    ensures Parse(FiltersInput(None, None, None, None)) == Ok(Filters(None, None, None, ""))
  {
    assert Trim("") == "";
    assert Issues(FiltersInput(None, None, None, None)) == {};
  }

  /** The criteria the list filter receives for parsed filters. */
  function ToCriteria(f: Filters): (r: Listing.Criteria)
    ensures r.status == "" <==> f.status.None?
    ensures r.category == "" <==> f.category.None?
    ensures r.priority == "" <==> f.priority.None?
    ensures r.search == f.search
  {
    Listing.Criteria(StatusName(f.status), CategoryName(f.category), PriorityName(f.priority), f.search)
  }
}
