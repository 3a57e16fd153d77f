/** The students' idea backlog: approved ideas, a free-text search, and the list of ideas the
    student marked interest in, persisted per user. */
module IdeaBacklog {
  import opened Common
  import opened Text
  import Listing
  import opened PresentationAuth

  datatype SimpleStatus = Pendente | EmAnalise | Aprovada | Rejeitada | AguardandoInfo

  datatype SimpleIdea = SimpleIdea(id: string, titulo: string, descricao: string, status: SimpleStatus, autor: string)

  const StorageKey := "fatec-conecta-backlog-interests"
  const InterestMessage := "Interesse registrado! Entraremos em contato com mais detalhes."

  /** The ideas kept after loading: the approved ones, in order. */
  function Approved(data: seq<SimpleIdea>): (r: seq<SimpleIdea>)
    ensures IsSubsequence(r, data)
    ensures forall i :: i in r <==> i in data && i.status == Aprovada
    decreases |data|
  {
    if data == [] then []
    else
      var rest := Approved(data[1..]);
      assert data == [data[0]] + data[1..];
      if data[0].status == Aprovada then [data[0]] + rest else rest
  }

  /** Duplicates are kept too: an approved idea keeps all its copies, any other idea none. */
  lemma {:induction false} ApprovedCounts(data: seq<SimpleIdea>, x: SimpleIdea)
    ensures multiset(Approved(data))[x] == if x.status == Aprovada then multiset(data)[x] else 0
    decreases |data|
  {
    if data != [] {
      ApprovedCounts(data[1..], x);
      assert data == [data[0]] + data[1..];
      assert multiset(data) == multiset([data[0]]) + multiset(data[1..]);
      var rest := Approved(data[1..]);
      if data[0].status == Aprovada {
        assert multiset([data[0]] + rest) == multiset([data[0]]) + multiset(rest);
      }
    }
  }

  /** What the search looks at in an idea: title, description and author. */
  function View(i: SimpleIdea): Listing.Listed {
    Listing.Listed("", "", "", i.titulo, i.descricao, i.autor)
  }

  /** The query: the search box, trimmed and lower-cased. */
  function Query(search: string): string {
    ToLower(Trim(search))
  }

  /** `filteredIdeas`: everything for an empty query, otherwise the ideas whose title,
      description or author contains it, ignoring case. */
  function FilteredIdeas(ideas: seq<SimpleIdea>, search: string): (r: seq<SimpleIdea>)
    ensures r == Listing.SelectMatching(ideas, View, Listing.Criteria("", "", "", Query(search)))
  {
    var q := Query(search);
    if q == "" then
      Listing.NoCriteriaKeepsAll(ideas, View);
      ideas
    else Listing.SelectMatching(ideas, View, Listing.Criteria("", "", "", q))
  }

  /** A blank query shows every idea; otherwise exactly the matching ideas are shown, in order. */
  lemma FilteredIdeasSpec(ideas: seq<SimpleIdea>, search: string)
    ensures (forall k :: 0 <= k < |search| ==> IsSpace(search[k])) ==> FilteredIdeas(ideas, search) == ideas
    ensures IsSubsequence(FilteredIdeas(ideas, search), ideas)
    ensures forall i :: i in FilteredIdeas(ideas, search) <==>
              i in ideas && (Query(search) == "" || Listing.SearchHit(View(i), Query(search)))
  {
    TrimEmptyIff(search);
    Listing.SelectMatchingSpec(ideas, View, Listing.Criteria("", "", "", Query(search)));
  }

  /** Surrounding white space and letter case in the search box do not matter. */
  lemma QueryNormalised(search: string)
    ensures Query(Trim(search)) == Query(search)
    ensures Query(ToLower(search)) == Query(search)
  {
    TrimIdempotent(search);
    TrimLowerCommute(search);
    ToLowerIdempotent(Trim(search));
  }

  /** Where the guard sends a visitor: nowhere while loading, to sign in without a user, and
      home for anyone whose top-level role is not `estudante`. */
  function Guard(isLoading: bool, user: Option<AppUser>): (r: Option<string>)
    ensures r.None? <==> isLoading || (user.Some? && user.value.role == "estudante")
    ensures !isLoading && user.None? ==> r == Some("/autenticacao")
    ensures !isLoading && user.Some? && user.value.role != "estudante" ==> r == Some("/")
  {
    if isLoading then None
    else if user.None? then Some("/autenticacao")
    else if user.value.role != "estudante" then Some("/")
    else None
  }

  /** The page shows its content only to a signed-in student once loading is over. */
  predicate ShowsContent(isLoading: bool, user: Option<AppUser>) {
    !isLoading && user.Some? && user.value.role == "estudante"
  }

  /** The guard reads the top-level role, case-sensitively, not the metadata role the hook's
      permission checks read: a user may pass one and fail the other. */
  lemma GuardIgnoresMetadataRole()
    ensures var u := AppUser("u", "e", "Estudante", Some("estudante"));
            !ShowsContent(false, Some(u)) && CanSuggestIdeas(Some(u))
    ensures var u := AppUser("u", "e", "estudante", None);
            ShowsContent(false, Some(u)) && !CanSuggestIdeas(Some(u))
  {
    var u := AppUser("u", "e", "Estudante", Some("estudante"));
    assert LowerAll(["comunidade", "estudante"])[1] == "estudante" by {
      LowerCaseFixed("estudante");
    }
    LowerCaseFixed("estudante");
  }

  /** The local-storage entry: absent, not parseable, or a map from user id to idea ids. */
  datatype Storage = Missing | Corrupt | Saved(interests: map<string, seq<string>>)

  predicate NoDuplicates(s: seq<string>) {
    forall i, j :: 0 <= i < j < |s| ==> s[i] != s[j]
  }

  /** The page's interest state. */
  class BacklogPage {
    var interests: seq<string>
    var storage: Storage
    var notices: seq<string>
    const userId: string

    /** `userId` is the signed-in user's id, or `''`. */
    constructor (user: Option<AppUser>, storage: Storage)
      ensures userId == (if user.Some? then user.value.id else "")
      ensures interests == [] && this.storage == storage && notices == []
    {
      userId := if user.Some? then user.value.id else "";
      interests := [];
      this.storage := storage;
      notices := [];
    }

    /** The interests effect: without a user id or a readable entry nothing changes; otherwise
        the user's list is loaded, empty when the map has none. */
    method LoadInterests()
      modifies this
      ensures storage == old(storage) && notices == old(notices)
      ensures userId != "" && storage.Saved? ==>
                interests == (if userId in storage.interests then storage.interests[userId] else [])
      ensures userId == "" || !storage.Saved? ==> interests == old(interests)
    {
      if userId == "" || !storage.Saved? {
        return;
      }
      interests := if userId in storage.interests then storage.interests[userId] else [];
    }

    /** `markInterest`: append the idea once, write the list back under this user only, and
        confirm with a toast. An unreadable entry is left alone, without a toast. */
    method MarkInterest(ideaId: string)
      modifies this
      ensures userId == "" || ideaId in old(interests) ==>
                interests == old(interests) && storage == old(storage) && notices == old(notices)
      ensures userId != "" && ideaId !in old(interests) ==> interests == old(interests) + [ideaId]
      ensures userId != "" && ideaId !in old(interests) && old(storage).Corrupt? ==>
                storage == old(storage) && notices == old(notices)
      ensures userId != "" && ideaId !in old(interests) && !old(storage).Corrupt? ==>
                storage.Saved? && notices == old(notices) + [InterestMessage] &&
                storage.interests == (if old(storage).Saved? then old(storage).interests else map[])[userId := interests]
      ensures NoDuplicates(old(interests)) ==> NoDuplicates(interests)
      ensures userId != "" ==> ideaId in interests
    {
      if userId == "" || ideaId in interests {
        return;
      }
      var next := interests + [ideaId];
      match storage {
        case Corrupt =>
        case Missing =>
          storage := Saved(map[userId := next]);
          notices := notices + [InterestMessage];
        case Saved(m) =>
          storage := Saved(m[userId := next]);
          notices := notices + [InterestMessage];
      }
      interests := next;
    }
  }

  /** Marking the same idea twice has the effect of marking it once, and no other user's saved
      list is touched. */
  method MarkTwice(page: BacklogPage, ideaId: string)
    modifies page
    ensures page.interests == (if page.userId == "" || ideaId in old(page.interests) then old(page.interests)
                               else old(page.interests) + [ideaId])
    ensures old(page.storage).Saved? && page.storage.Saved? ==>
              forall k :: k in old(page.storage).interests && k != page.userId ==>
                k in page.storage.interests && page.storage.interests[k] == old(page.storage).interests[k]
  {
    page.MarkInterest(ideaId);
    page.MarkInterest(ideaId);
  }
}
