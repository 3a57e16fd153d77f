/** The idea-validation page: mediators and coordination review submitted ideas, approve or
    reject them with notes, and coordination assigns approved ideas to a class. */
module ValidateIdeas {
  import opened Common
  import opened UseAuth
  import FiltersSchema
  import Listing

  datatype IdeaStatus = Pendente | Aprovada | Rejeitada | EmAnalise | Atribuida {
    function Name(): string {
      match this
      case Pendente => "pendente"
      case Aprovada => "aprovada"
      case Rejeitada => "rejeitada"
      case EmAnalise => "em_analise"
      case Atribuida => "atribuida"
    }
  }

  /** The class an idea is assigned to. */
  datatype Assignment = Assignment(classGroup: string, semester: string, course: string, professor: string)

  datatype Idea = Idea(
    id: string,
    title: string,
    description: string,
    category: string,
    priority: FiltersSchema.Priority,
    status: IdeaStatus,
    submitterName: string,
    mediatorNotes: Option<string>,
    assignedTo: Option<Assignment>,
    coordinatorNotes: Option<string>)

  /** What the list filter looks at in an idea. */
  function View(i: Idea): Listing.Listed {
    Listing.Listed(i.status.Name(), i.category, i.priority.Name(), i.title, i.description, i.submitterName)
  }

  /** The ideas the page loads. */
  const MockIdeas: seq<Idea> := [
    Idea("1", "Semáforos Inteligentes para Redução de Trânsito",
         "Implementação de sistema de semáforos inteligentes que se adaptam ao fluxo de trânsito em tempo real, reduzindo congestionamentos nos horários de pico.",
         "transporte", FiltersSchema.Alta, Pendente, "Maria Fernanda Santos", None, None, None),
    Idea("2", "App de Monitoramento da Qualidade do Ar",
         "Desenvolvimento de aplicativo móvel para monitoramento em tempo real da qualidade do ar na cidade, com alertas para grupos de risco.",
         "ambiente", FiltersSchema.Media, Aprovada, "João Carlos Oliveira",
         Some("Ideia muito relevante para saúde pública. Recomendo aprovação."),
         Some(Assignment("4º ADS", "4º semestre", "Análise e Desenvolvimento de Sistemas", "Prof. Dr. Ricardo Silva")),
         Some("Projeto aprovado para desenvolvimento na disciplina de Projeto Integrador.")),
    Idea("3", "Sistema de Denúncia de Irregularidades Urbanas",
         "Plataforma online para cidadãos reportarem buracos, iluminação defeituosa, lixo acumulado e outras irregularidades urbanas.",
         "infraestrutura", FiltersSchema.Alta, EmAnalise, "Ana Paula Costa",
         Some("Analisando viabilidade técnica e recursos necessários."), None, None)
  ]

  /** A change to one idea: a new status with the reviewer's notes, or a class assignment. */
  datatype Change =
    | StatusChange(status: IdeaStatus, notes: Option<string>, role: Option<Role>)
    | ClassAssignment(assignment: Assignment)

  /** The spread that updates the matching idea. A status change writes the notes into the
      reviewer's own field, replacing what was there; an assignment sets the status to
      `atribuida`. */
  function Apply(idea: Idea, c: Change): (r: Idea)
    ensures r.id == idea.id && r.title == idea.title && r.description == idea.description
    ensures r.category == idea.category && r.priority == idea.priority && r.submitterName == idea.submitterName
    ensures c.StatusChange? ==> r.status == c.status && r.assignedTo == idea.assignedTo
    ensures c.StatusChange? ==>
              r.mediatorNotes == (if c.role == Some(Mediador) then c.notes else idea.mediatorNotes) &&
              r.coordinatorNotes == (if c.role == Some(Coordenacao) then c.notes else idea.coordinatorNotes)
    ensures c.ClassAssignment? ==>
              r == idea.(status := Atribuida, assignedTo := Some(c.assignment))
  {
    match c
    case StatusChange(status, notes, role) =>
      var r := idea.(status := status);
      var r := if role == Some(Mediador) then r.(mediatorNotes := notes) else r;
      if role == Some(Coordenacao) then r.(coordinatorNotes := notes) else r
    case ClassAssignment(a) =>
      idea.(status := Atribuida, assignedTo := Some(a))
  }

  /** `prev.map(idea => idea.id === id ? change(idea) : idea)`. */
  function UpdateWhere(ideas: seq<Idea>, id: string, c: Change): (r: seq<Idea>)
    ensures |r| == |ideas|
    ensures forall k :: 0 <= k < |r| ==> r[k].id == ideas[k].id
    ensures forall k :: 0 <= k < |r| && ideas[k].id != id ==> r[k] == ideas[k]
    ensures forall k :: 0 <= k < |r| && ideas[k].id == id ==> r[k] == Apply(ideas[k], c)
  {
    seq(|ideas|, k requires 0 <= k < |ideas| => if ideas[k].id == id then Apply(ideas[k], c) else ideas[k])
  }

  /** An id that matches no idea leaves the list as it was, and notes given twice keep only the
      second. */
  lemma UpdateWhereFacts(ideas: seq<Idea>, id: string, s1: IdeaStatus, s2: IdeaStatus, n1: Option<string>, n2: Option<string>, role: Option<Role>)
    ensures (forall k :: 0 <= k < |ideas| ==> ideas[k].id != id) ==> UpdateWhere(ideas, id, StatusChange(s1, n1, role)) == ideas
    ensures UpdateWhere(UpdateWhere(ideas, id, StatusChange(s1, n1, role)), id, StatusChange(s2, n2, role))
            == UpdateWhere(ideas, id, StatusChange(s2, n2, role))
  {
  }

  datatype Action = Approve | Reject | Assign

  /** The review buttons offered for an idea: approve and reject to mediators and coordination
      unless the idea is already assigned, and assignment to coordination on approved ideas. */
  function OfferedActions(user: Option<User>, status: IdeaStatus): (r: set<Action>)
    ensures Approve in r <==> Reject in r
    ensures Approve in r <==> CanAccessIdeaValidation(user) && status != Atribuida
    ensures Assign in r <==> CanAssignToClasses(user) && status == Aprovada
    ensures Assign in r ==> Approve in r
  {
    CapabilityTable(user);
    var reviewer := user.Some? && (user.value.role == Mediador || user.value.role == Coordenacao);
    if !reviewer || status == Atribuida then {}
    else {Approve, Reject} + (if CanAssignToClasses(user) && status == Aprovada then {Assign} else {})
  }

  /** Review is not a one-way lifecycle: an approved or rejected idea can be approved or
      rejected again. */
  lemma ReviewCanBeRepeated(u: User)
    requires u.role == Mediador || u.role == Coordenacao
    ensures Approve in OfferedActions(Some(u), Rejeitada) && Reject in OfferedActions(Some(u), Aprovada)
    ensures OfferedActions(Some(u), Atribuida) == {}
  {
  }

  /** The modal's submit: assign when asked and allowed, approve or reject with the notes, or
      nothing. */
  function SubmitEffect(action: Option<Action>, user: Option<User>, notes: string, a: Assignment): (r: Option<Change>)
    ensures action == Some(Assign) ==> (r.Some? <==> CanAssignToClasses(user))
    ensures action == Some(Approve) ==> r == Some(StatusChange(Aprovada, Some(notes), RoleOf(user)))
    ensures action == Some(Reject) ==> r == Some(StatusChange(Rejeitada, Some(notes), RoleOf(user)))
    ensures action.None? ==> r.None?
    ensures r.Some? && r.value.ClassAssignment? ==> r.value.assignment == a
  {
    if action == Some(Assign) && CanAssignToClasses(user) then Some(ClassAssignment(a))
    else if action == Some(Approve) then Some(StatusChange(Aprovada, Some(notes), RoleOf(user)))
    else if action == Some(Reject) then Some(StatusChange(Rejeitada, Some(notes), RoleOf(user)))
    else None
  }

  function RoleOf(user: Option<User>): Option<Role> {
    if user.Some? then Some(user.value.role) else None
  }

  /** The assignment form starts blank and has inputs for the class, the course and the
      professor only. */
  const BlankAssignment := Assignment("", "", "", "")

  datatype FormField = ClassInput | CourseInput | ProfessorInput

  function Edit(a: Assignment, f: FormField, value: string): Assignment {
    match f
    case ClassInput => a.(classGroup := value)
    case CourseInput => a.(course := value)
    case ProfessorInput => a.(professor := value)
  }

  /** The form after a sequence of edits. */
  function EditAll(a: Assignment, edits: seq<(FormField, string)>): Assignment
    decreases |edits|
  {
    if edits == [] then a else EditAll(Edit(a, edits[0].0, edits[0].1), edits[1..])
  }

  /** No edit reaches the semester, so an assignment submitted from the form has an empty
      semester. */
  lemma {:induction false} SemesterNeverSet(a: Assignment, edits: seq<(FormField, string)>)
    ensures EditAll(a, edits).semester == a.semester
    decreases |edits|
  {
    if edits != [] {
      SemesterNeverSet(Edit(a, edits[0].0, edits[0].1), edits[1..]);
    }
  }

  /** The page's state. */
  class ValidateIdeasPage {
    var ideas: seq<Idea>
    var filteredIdeas: seq<Idea>
    var selected: Option<Idea>
    var filters: Listing.Criteria
    const user: Option<User>

    /** The filter effect has run on the current ideas and filters. */
    ghost predicate Valid()
      reads this
    {
      filteredIdeas == Listing.SelectMatching(ideas, View, filters)
    }

    constructor (user: Option<User>)
      ensures this.user == user && ideas == [] && filteredIdeas == [] && selected.None?
      ensures filters == Listing.NoCriteria && Valid()
    {
      this.user := user;
      ideas := [];
      filteredIdeas := [];
      selected := None;
      filters := Listing.NoCriteria;
    }

    /** Whether the page renders at all. */
    predicate Visible()
      reads this
    {
      CanAccessIdeaValidation(user)
    }

    /** The mount effect: a visitor without access is sent home; otherwise the ideas load. */
    method Load() returns (redirect: Option<string>)
      modifies this
      ensures !Visible() ==> redirect == Some("/") && ideas == old(ideas) && filteredIdeas == old(filteredIdeas)
      ensures Visible() ==> redirect.None? && ideas == MockIdeas && filteredIdeas == MockIdeas
      ensures filters == old(filters) && selected == old(selected)
      ensures Visible() && filters == Listing.NoCriteria ==> Valid()
      ensures !Visible() && old(Valid()) ==> Valid()
    {
      if !CanAccessIdeaValidation(user) {
        return Some("/");
      }
      ideas := MockIdeas;
      filteredIdeas := MockIdeas;
      redirect := None;
      Listing.NoCriteriaKeepsAll(MockIdeas, View);
    }

    /** The filter effect. */
    method RefreshFilter()
      modifies this
      ensures Valid()
      ensures ideas == old(ideas) && filters == old(filters) && selected == old(selected)
    {
      filteredIdeas := Listing.ApplyFilters(ideas, View, filters);
    }

    method SetFilters(c: Listing.Criteria)
      modifies this
      ensures filters == c && Valid()
      ensures ideas == old(ideas) && selected == old(selected)
    {
      filters := c;
      RefreshFilter();
    }

    /** `handleStatusChange`, followed by the filter effect it triggers. */
    method HandleStatusChange(id: string, status: IdeaStatus, notes: Option<string>)
      modifies this
      ensures ideas == UpdateWhere(old(ideas), id, StatusChange(status, notes, RoleOf(user)))
      ensures selected.None? && filters == old(filters) && Valid()
    {
      ideas := UpdateWhere(ideas, id, StatusChange(status, notes, RoleOf(user)));
      selected := None;
      RefreshFilter();
    }

    /** `handleClassAssignment`: no field of the assignment is checked. */
    method HandleClassAssignment(id: string, a: Assignment)
      modifies this
      ensures ideas == UpdateWhere(old(ideas), id, ClassAssignment(a))
      ensures selected.None? && filters == old(filters) && Valid()
    {
      ideas := UpdateWhere(ideas, id, ClassAssignment(a));
      selected := None;
      RefreshFilter();
    }

    /** The modal's submit for `idea`. */
    method HandleSubmit(idea: Idea, action: Option<Action>, notes: string, a: Assignment)
      modifies this
      ensures var e := SubmitEffect(action, user, notes, a);
              (e.None? ==> ideas == old(ideas) && selected == old(selected) && filteredIdeas == old(filteredIdeas)) &&
              (e.Some? ==> ideas == UpdateWhere(old(ideas), idea.id, e.value) && selected.None? && Valid())
      ensures filters == old(filters)
    {
      var e := SubmitEffect(action, user, notes, a);
      if e.Some? {
        match e.value
        case ClassAssignment(assignment) =>
          HandleClassAssignment(idea.id, assignment);
        case StatusChange(status, n, _) =>
          HandleStatusChange(idea.id, status, n);
      }
    }
  }
}
