/** The project-tracking page: the list of projects in development and its filter. */
module TrackProjects {
  import opened Common
  import opened FiltersSchema
  import Listing
  import opened ProjectsRoute

  /** The projects the page loads. */
  const MockProjects: seq<Project> := [
    Project("1", "Aplicativo para Coleta Seletiva",
            "Desenvolvimento de aplicativo mobile para facilitar a coleta seletiva no bairro, com mapeamento de pontos de coleta e agendamento.",
            "ambiente", EmDesenvolvimento, Alta,
            Student("Ana Silva", "Análise e Desenvolvimento de Sistemas", "4º semestre"), 65),
    Project("2", "Sistema de Monitoramento de Iluminação Pública",
            "Criação de sistema IoT para monitoramento automático de falhas na iluminação pública com notificações em tempo real.",
            "infraestrutura", Testando, Media,
            Student("Carlos Oliveira", "Sistemas Embarcados", "6º semestre"), 85),
    Project("3", "Plataforma de Carona Solidária",
            "Desenvolvimento de plataforma web para conectar pessoas da comunidade que oferecem e precisam de carona.",
            "transporte", Concluido, Media,
            Student("Marina Santos", "Análise e Desenvolvimento de Sistemas", "5º semestre"), 100)
  ]

  /** A status-only filter keeps exactly the projects with that status, in order. */
  lemma StatusFilterExact(projects: seq<Project>, s: ProjectStatus)
    ensures IsSubsequence(Listing.SelectMatching(projects, View, Listing.Criteria(s.Name(), "", "", "")), projects)
    ensures forall p :: p in Listing.SelectMatching(projects, View, Listing.Criteria(s.Name(), "", "", "")) <==>
                        p in projects && p.status == s
  {
    Listing.SelectMatchingSpec(projects, View, Listing.Criteria(s.Name(), "", "", ""));
    forall p: Project
      ensures p.status.Name() == s.Name() <==> p.status == s
    {
      NamesRoundTrip(p.status, Baixa, Outros);
      NamesRoundTrip(s, Baixa, Outros);
    }
  }

  /** Category and priority filters combine: a project is kept when it has both. */
  lemma CategoryAndPriority(projects: seq<Project>, c: Category, pr: Priority)
    ensures forall p :: p in Listing.SelectMatching(projects, View, Listing.Criteria("", c.Name(), pr.Name(), "")) <==>
                        p in projects && p.category == c.Name() && p.priority == pr
  {
    Listing.SelectMatchingSpec(projects, View, Listing.Criteria("", c.Name(), pr.Name(), ""));
    NamesRoundTrip(EmAnalise, pr, c);
    forall p: Project
      ensures p.priority.Name() == pr.Name() <==> p.priority == pr
    {
      NamesRoundTrip(EmAnalise, p.priority, c);
    }
  }

  /** The page's state. */
  class ProjectsPage {
    var projects: seq<Project>
    var filteredProjects: seq<Project>
    var filters: Listing.Criteria

    /** The filter effect has run on the current projects and filters. */
    ghost predicate Valid()
      reads this
    {
      filteredProjects == Listing.SelectMatching(projects, View, filters)
    }

    constructor ()
      ensures projects == [] && filteredProjects == [] && filters == Listing.NoCriteria && Valid()
    {
      projects := [];
      filteredProjects := [];
      filters := Listing.NoCriteria;
    }

    /** The mount effect: both lists become the loaded projects. */
    method Load()
      modifies this
      ensures projects == MockProjects && filteredProjects == MockProjects && filters == old(filters)
      ensures filters == Listing.NoCriteria ==> Valid()
    {
      projects := MockProjects;
      filteredProjects := MockProjects;
      Listing.NoCriteriaKeepsAll(projects, View);
    }

    /** The filter effect: status, category, priority, then search, each skipped when empty. */
    method RefreshFilter()
      modifies this
      ensures Valid() && projects == old(projects) && filters == old(filters)
      ensures IsSubsequence(filteredProjects, projects)
      ensures filters == Listing.NoCriteria ==> filteredProjects == projects
    {
      filteredProjects := Listing.ApplyFilters(projects, View, filters);
      Listing.SelectMatchingSpec(projects, View, filters);
      Listing.NoCriteriaKeepsAll(projects, View);
    }

    method SetFilters(c: Listing.Criteria)
      modifies this
      ensures filters == c && projects == old(projects) && Valid()
    {
      filters := c;
      RefreshFilter();
    }
  }
}
