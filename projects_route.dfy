/** The project list API: a generated data set of 42 projects, and `GET`, which filters and
    paginates it. */
module ProjectsRoute {
  import opened Common
  import opened Text
  import opened FiltersSchema
  import Listing

  datatype Student = Student(name: string, course: string, semester: string)

  /** A project as listed. The category is free text in the record type. */
  datatype Project = Project(
    id: string,
    title: string,
    description: string,
    category: string,
    status: ProjectStatus,
    priority: Priority,
    student: Student,
    progress: int)

  /** What the list filter looks at in a project. */
  function View(p: Project): Listing.Listed {
    Listing.Listed(p.status.Name(), p.category, p.priority.Name(), p.title, p.description, p.student.name)
  }

  /** The three base projects the data set is generated from. */
  const Seeds: seq<Project> := [
    Project("1", "Aplicativo para Coleta Seletiva",
            "App mobile para facilitar a coleta seletiva com mapeamento de pontos e agendamento.",
            "ambiente", EmDesenvolvimento, Alta,
            Student("Ana Silva", "Análise e Desenvolvimento de Sistemas", "4º semestre"), 65),
    Project("2", "Monitoramento de Iluminação Pública",
            "Sistema IoT para monitorar falhas na iluminação com alertas em tempo real.",
            "infraestrutura", Testando, Media,
            Student("Carlos Oliveira", "Sistemas Embarcados", "6º semestre"), 85),
    Project("3", "Plataforma de Carona Solidária",
            "Plataforma web para conectar pessoas que oferecem e precisam de carona.",
            "transporte", Concluido, Media,
            Student("Marina Santos", "Análise e Desenvolvimento de Sistemas", "5º semestre"), 100)
  ]

  const DatasetSize := 42

  const StatusPool: seq<ProjectStatus> := [EmAnalise, EmDesenvolvimento, Testando, Concluido, Suspenso]
  const PriorityPool: seq<Priority> := [Baixa, Media, Alta, Urgente]

  function DigitChar(d: nat): char
    requires d < 10
  {
    ('0' as int + d) as char
  }

  /** `n.toString()` for a natural number: its decimal digits, most significant first. */
  function NatToString(n: nat): (r: string)
    ensures |r| >= 1
    ensures n >= 10 ==> |r| >= 2
    ensures r[|r| - 1] == DigitChar(n % 10)
    decreases n
  {
    if n < 10 then [DigitChar(n)] else NatToString(n / 10) + [DigitChar(n % 10)]
  }

  /** Different numbers have different decimal forms, so the generated ids are distinct. */
  lemma {:induction false} NatToStringInjective(a: nat, b: nat)
    requires NatToString(a) == NatToString(b)
    ensures a == b
    decreases a
  {
    var s := NatToString(a);
    assert DigitChar(a % 10) == DigitChar(b % 10);
    if a >= 10 && b >= 10 {
      assert NatToString(a / 10) == s[..|s| - 1] == NatToString(b / 10);
      NatToStringInjective(a / 10, b / 10);
    }
  }

  /** The `i`-th generated project: seed `i % 3`, id `i + 1`, numbered title, progress shifted by
      `((i % 7) - 3) * 5` and clamped to [5, 100], status and priority taken round-robin. */
  function Generate(i: nat): (p: Project)
    ensures 5 <= p.progress <= 100
    ensures p.id == NatToString(i + 1)
    ensures p.status == StatusPool[i % 5] && p.priority == PriorityPool[(i + 1) % 4]
  {
    var base := Seeds[i % 3];
    var id := NatToString(i + 1);
    base.(id := id,
          title := base.title + " #" + id,
          progress := Min(100, Max(5, base.progress + ((i % 7) - 3) * 5)),
          status := StatusPool[i % 5],
          priority := PriorityPool[(i + 1) % 4])
  }

  /** `DATASET`. */
  function Dataset(): (d: seq<Project>)
    ensures |d| == DatasetSize
    ensures forall i :: 0 <= i < |d| ==> d[i] == Generate(i)
  {
    seq(DatasetSize, i requires 0 <= i => Generate(i))
  }

  /** The ids are "1" to "42", pairwise distinct, and every progress lies in [5, 100]. */
  lemma DatasetFacts()
    ensures forall i :: 0 <= i < DatasetSize ==> Dataset()[i].id == NatToString(i + 1)
    ensures forall i, j :: 0 <= i < j < DatasetSize ==> Dataset()[i].id != Dataset()[j].id
    ensures forall i :: 0 <= i < DatasetSize ==> 5 <= Dataset()[i].progress <= 100
  {
    forall i, j | 0 <= i < j < DatasetSize
      ensures Dataset()[i].id != Dataset()[j].id
    {
      if Dataset()[i].id == Dataset()[j].id {
        NatToStringInjective(i + 1, j + 1);
      }
    }
  }

  /** The query string; `None` stands for an absent parameter or one that is not a number. */
  datatype Query = Query(
    page: Option<int>,
    pageSize: Option<int>,
    status: Option<string>,
    category: Option<string>,
    priority: Option<string>,
    search: Option<string>)

  datatype Response = Response(data: seq<Project>, page: int, pageSize: int, total: int, totalPages: int)

  const DefaultPageSize := 6
  const MaxPageSize := 24

  /** `Number(x) || d`: zero, like an absent or non-numeric value, falls back to the default. */
  function NumberOr(x: Option<int>, d: int): (r: int)
    ensures x.None? || x.value == 0 ==> r == d
    ensures x.Some? && x.value != 0 ==> r == x.value
  {
    if x.None? || x.value == 0 then d else x.value
  }

  /** The filter criteria of a query: absent fields are empty, and the search is lower-cased but
      not trimmed. */
  function CriteriaOf(q: Query): (c: Listing.Criteria)
    ensures c.search == ToLower(q.search.GetOr(""))
  {
    Listing.Criteria(q.status.GetOr(""), q.category.GetOr(""), q.priority.GetOr(""), ToLower(q.search.GetOr("")))
  }

  /** The projects a query selects, before pagination. */
  function Filtered(q: Query): seq<Project> {
    Listing.SelectMatching(Dataset(), View, CriteriaOf(q))
  }

  /** `ceil(total / size)`, but at least 1. */
  function PageCount(total: nat, size: nat): (r: nat)
    requires size >= 1
    ensures r >= 1
    ensures total == 0 ==> r == 1
    ensures total > 0 ==> (r - 1) * size < total <= r * size
  {
    Max(1, (total + size - 1) / size)
  }

  /** The index of the first item of page `page`. */
  function PageStart(page: nat, size: nat): nat
    requires page >= 1
  {
    (page - 1) * size
  }

  /** `filtered.slice(start, start + pageSize)` with `start = (page - 1) * pageSize`: the
      `page`-th run of `pageSize` items, full before the last page and empty past it. */
  function Paginate<T>(s: seq<T>, page: nat, size: nat): (r: seq<T>)
    requires page >= 1 && size >= 1
    ensures |r| <= size
    ensures forall k :: 0 <= k < |r| ==> PageStart(page, size) + k < |s| && r[k] == s[PageStart(page, size) + k]
    ensures page < PageCount(|s|, size) ==> |r| == size
    ensures page > PageCount(|s|, size) ==> r == []
    ensures IsSubsequence(r, s)
  {
    var start := PageStart(page, size);
    PageBounds(|s|, page, size);
    SliceSubsequence(s, start, start + size);
    Slice(s, start, start + size)
  }

  /** `GET /api/projetos`. */
  method Get(q: Query) returns (resp: Response)
    ensures resp.page >= 1
    ensures q.page.None? || q.page.value == 0 ==> resp.page == 1
    ensures q.page.Some? && q.page.value >= 1 ==> resp.page == q.page.value
    ensures q.page.Some? && q.page.value < 0 ==> resp.page == 1
    ensures 1 <= resp.pageSize <= MaxPageSize
    ensures q.pageSize.None? || q.pageSize.value == 0 ==> resp.pageSize == DefaultPageSize
    ensures q.pageSize.Some? && 1 <= q.pageSize.value <= MaxPageSize ==> resp.pageSize == q.pageSize.value
    ensures q.pageSize.Some? && q.pageSize.value > MaxPageSize ==> resp.pageSize == MaxPageSize
    ensures q.pageSize.Some? && q.pageSize.value < 0 ==> resp.pageSize == 1
    ensures resp.total == |Filtered(q)|
    ensures resp.totalPages == PageCount(resp.total, resp.pageSize)
    ensures resp.data == Paginate(Filtered(q), resp.page, resp.pageSize)
    ensures IsSubsequence(resp.data, Dataset())
  {
    var page := Max(1, NumberOr(q.page, 1));
    var pageSize := Min(MaxPageSize, Max(1, NumberOr(q.pageSize, DefaultPageSize)));
    var filtered := Listing.ApplyFilters(Dataset(), View, CriteriaOf(q));
    var total := |filtered|;
    var totalPages := PageCount(total, pageSize);
    var data := Paginate(filtered, page, pageSize);
    Listing.SelectMatchingSpec(Dataset(), View, CriteriaOf(q));
    SubsequenceTrans(data, filtered, Dataset());
    resp := Response(data, page, pageSize, total, totalPages);
  }

  lemma MulMonotone(a: nat, b: nat, c: nat)
    requires a <= b
    ensures a * c <= b * c
  {
  }

  /** Pages before the last are complete, and pages after it start past the end. */
  lemma PageBounds(total: nat, page: nat, size: nat)
    requires page >= 1 && size >= 1
    ensures page < PageCount(total, size) ==> PageStart(page, size) + size < total
    ensures page > PageCount(total, size) ==> PageStart(page, size) >= total
  {
    var totalPages := PageCount(total, size);
    assert (page - 1) * size + size == page * size;
    if page < totalPages {
      MulMonotone(page, totalPages - 1, size);
    }
    if page > totalPages {
      MulMonotone(totalPages, page - 1, size);
    }
  }

  lemma SliceSubsequence<T>(s: seq<T>, start: nat, end: nat)
    ensures IsSubsequence(Slice(s, start, end), s)
  {
    var a := Min(start, |s|);
    var b := Min(Max(a, end), |s|);
    SliceIsSubsequence(s, a, b);
  }

  /** Every item on a page is a project of the data set that matches the query. */
  lemma PageItemsMatch(q: Query, page: nat, size: nat, x: Project)
    requires page >= 1 && size >= 1
    requires x in Paginate(Filtered(q), page, size)
    ensures x in Dataset() && Listing.Matches(View(x), CriteriaOf(q))
  {
    Listing.SelectMatchingSpec(Dataset(), View, CriteriaOf(q));
    SubsequenceMembers(Paginate(Filtered(q), page, size), Filtered(q), x);
  }

  /** Paging misses nothing: item `j` of the filtered list is item `j % size` of page
      `j / size + 1`. */
  lemma EveryItemOnItsPage<T>(s: seq<T>, size: nat, j: nat)
    requires size >= 1 && j < |s|
    ensures var p := j / size + 1;
            j % size < |Paginate(s, p, size)| && Paginate(s, p, size)[j % size] == s[j]
  {
    var p := j / size + 1;
    assert PageStart(p, size) + j % size == j;
    assert PageStart(p, size) + size > j;
  }
}
