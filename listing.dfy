/** The four-step filter that the project route, the project-tracking page and the
    idea-validation page apply to their lists: status, category, priority, then free text. */
module Listing {
  import opened Common
  import opened Text

  /** The filter fields; the empty string means "any". */
  datatype Criteria = Criteria(status: string, category: string, priority: string, search: string)

  const NoCriteria := Criteria("", "", "", "")

  /** What the filter looks at in a listed item: its three enumerations, and the three texts the
      search is matched against (title, description, and the name of the student or submitter). */
  datatype Listed = Listed(
    status: string,
    category: string,
    priority: string,
    title: string,
    description: string,
    person: string)

  /** The free-text search: the lower-cased query occurs in one of the lower-cased texts. */
  predicate SearchHit(x: Listed, search: string) {
    var q := ToLower(search);
    Contains(ToLower(x.title), q) || Contains(ToLower(x.description), q) || Contains(ToLower(x.person), q)
  }

  /** The filter string of step `k` (0 status, 1 category, 2 priority, 3 search). */
  function Field(c: Criteria, k: nat): string {
    if k == 0 then c.status
    else if k == 1 then c.category
    else if k == 2 then c.priority
    else c.search
  }

  /** Step `k` lets `x` through: its filter is empty, or `x` matches it. */
  predicate PassesStep(x: Listed, c: Criteria, k: nat) {
    Field(c, k) == "" ||
    (if k == 0 then x.status == c.status
     else if k == 1 then x.category == c.category
     else if k == 2 then x.priority == c.priority
     else SearchHit(x, c.search))
  }

  /** `x` passes the first `n` steps. */
  predicate PassesFirst(x: Listed, c: Criteria, n: nat) {
    forall k :: 0 <= k < n ==> PassesStep(x, c, k)
  }

  /** `x` matches every non-empty filter field. */
  predicate Matches(x: Listed, c: Criteria) {
    (c.status == "" || x.status == c.status) &&
    (c.category == "" || x.category == c.category) &&
    (c.priority == "" || x.priority == c.priority) &&
    (c.search == "" || SearchHit(x, c.search))
  }

  lemma PassesAllSteps(x: Listed, c: Criteria)
    ensures PassesFirst(x, c, 4) <==> Matches(x, c)
  {
    assert PassesFirst(x, c, 4) ==> PassesStep(x, c, 0) && PassesStep(x, c, 1) && PassesStep(x, c, 2) && PassesStep(x, c, 3);
  }

  /** One `filter` call of step `k`, in order. */
  function Keep<T>(items: seq<T>, view: T -> Listed, c: Criteria, k: nat): (r: seq<T>)
    ensures |r| <= |items|
    ensures IsSubsequence(r, items)
    ensures forall i :: 0 <= i < |r| ==> r[i] in items && PassesStep(view(r[i]), c, k)
    ensures forall i :: 0 <= i < |items| && PassesStep(view(items[i]), c, k) ==> items[i] in r
    decreases |items|
  {
    if items == [] then []
    else
      var rest := Keep(items[1..], view, c, k);
      assert forall i :: 1 <= i < |items| ==> items[i] == items[1..][i - 1];
      if PassesStep(view(items[0]), c, k) then
        assert ([items[0]] + rest)[1..] == rest;
        [items[0]] + rest
      else
        rest
  }

  /** The items that pass the first `n` steps, in order. */
  function Select<T>(items: seq<T>, view: T -> Listed, c: Criteria, n: nat): (r: seq<T>)
    decreases |items|
  {
    if items == [] then []
    else
      var rest := Select(items[1..], view, c, n);
      if PassesFirst(view(items[0]), c, n) then [items[0]] + rest else rest
  }

  /** The items that match the criteria, in their original order. */
  function SelectMatching<T>(items: seq<T>, view: T -> Listed, c: Criteria): seq<T> {
    Select(items, view, c, 4)
  }

  /** Before any step, nothing is removed. */
  lemma {:induction false} SelectNone<T>(items: seq<T>, view: T -> Listed, c: Criteria)
    ensures Select(items, view, c, 0) == items
    decreases |items|
  {
    if items != [] {
      SelectNone(items[1..], view, c);
      assert items == [items[0]] + items[1..];
    }
  }

  /** Applying step `n` to the items that passed the first `n` steps gives those that pass
      the first `n + 1`. */
  lemma {:induction false} SelectStep<T>(items: seq<T>, view: T -> Listed, c: Criteria, n: nat)
    ensures Keep(Select(items, view, c, n), view, c, n) == Select(items, view, c, n + 1)
    decreases |items|
  {
    if items != [] {
      SelectStep(items[1..], view, c, n);
      var x := view(items[0]);
      var rest := Select(items[1..], view, c, n);
      if PassesFirst(x, c, n) {
        var s := [items[0]] + rest;
        assert s[1..] == rest;
        assert PassesFirst(x, c, n + 1) <==> PassesStep(x, c, n);
      } else {
        assert !PassesFirst(x, c, n + 1);
      }
    }
  }

  /** A step whose filter is empty keeps everything: the `if (filters.x)` guard may skip it. */
  lemma {:induction false} KeepInactive<T>(items: seq<T>, view: T -> Listed, c: Criteria, k: nat)
    requires Field(c, k) == ""
    ensures Keep(items, view, c, k) == items
    decreases |items|
  {
    if items != [] {
      KeepInactive(items[1..], view, c, k);
      assert items == [items[0]] + items[1..];
    }
  }

  /** The items that pass the first `n` steps, in order. */
  lemma {:induction false} SelectSpec<T>(items: seq<T>, view: T -> Listed, c: Criteria, n: nat)
    ensures |Select(items, view, c, n)| <= |items|
    ensures IsSubsequence(Select(items, view, c, n), items)
    ensures forall x :: x in Select(items, view, c, n) <==> x in items && PassesFirst(view(x), c, n)
    decreases |items|
  {
    if items != [] {
      SelectSpec(items[1..], view, c, n);
      var rest := Select(items[1..], view, c, n);
      assert items == [items[0]] + items[1..];
      if PassesFirst(view(items[0]), c, n) {
        assert ([items[0]] + rest)[1..] == rest;
      }
    }
  }

  /** The selection keeps exactly the matching items, in order. */
  lemma SelectMatchingSpec<T>(items: seq<T>, view: T -> Listed, c: Criteria)
    ensures |SelectMatching(items, view, c)| <= |items|
    ensures IsSubsequence(SelectMatching(items, view, c), items)
    ensures forall x :: x in SelectMatching(items, view, c) <==> x in items && Matches(view(x), c)
  {
    SelectSpec(items, view, c, 4);
    forall x
      ensures PassesFirst(view(x), c, 4) <==> Matches(view(x), c)
    {
      PassesAllSteps(view(x), c);
    }
  }

  /** One step keeps every copy of a passing item and no copy of any other. */
  lemma {:induction false} KeepCounts<T>(items: seq<T>, view: T -> Listed, c: Criteria, k: nat, x: T)
    ensures multiset(Keep(items, view, c, k))[x] == if PassesStep(view(x), c, k) then multiset(items)[x] else 0
    decreases |items|
  {
    if items != [] {
      KeepCounts(items[1..], view, c, k, x);
      assert items == [items[0]] + items[1..];
      assert multiset(items) == multiset([items[0]]) + multiset(items[1..]);
      var rest := Keep(items[1..], view, c, k);
      if PassesStep(view(items[0]), c, k) {
        assert multiset([items[0]] + rest) == multiset([items[0]]) + multiset(rest);
      }
    }
  }

  /** Duplicates are kept too: every item that passes the first `n` steps keeps all its copies,
      and every other item loses all of them. */
  lemma {:induction false} SelectCounts<T>(items: seq<T>, view: T -> Listed, c: Criteria, n: nat, x: T)
    ensures multiset(Select(items, view, c, n))[x] == if PassesFirst(view(x), c, n) then multiset(items)[x] else 0
    decreases |items|
  {
    if items != [] {
      SelectCounts(items[1..], view, c, n, x);
      assert items == [items[0]] + items[1..];
      assert multiset(items) == multiset([items[0]]) + multiset(items[1..]);
      var rest := Select(items[1..], view, c, n);
      if PassesFirst(view(items[0]), c, n) {
        assert multiset([items[0]] + rest) == multiset([items[0]]) + multiset(rest);
      }
    }
  }

  /** The selection holds each matching item as often as the list does, and no other item. */
  lemma SelectMatchingCounts<T>(items: seq<T>, view: T -> Listed, c: Criteria, x: T)
    ensures multiset(SelectMatching(items, view, c))[x] == if Matches(view(x), c) then multiset(items)[x] else 0
  {
    SelectCounts(items, view, c, 4, x);
    PassesAllSteps(view(x), c);
  }

  /** With every filter empty, the whole list is shown. */
  lemma {:induction false} NoCriteriaKeepsAll<T>(items: seq<T>, view: T -> Listed)
    ensures SelectMatching(items, view, NoCriteria) == items
  {
    SelectNone(items, view, NoCriteria);
    SelectStep(items, view, NoCriteria, 0);
    KeepInactive(Select(items, view, NoCriteria, 0), view, NoCriteria, 0);
    SelectStep(items, view, NoCriteria, 1);
    KeepInactive(Select(items, view, NoCriteria, 1), view, NoCriteria, 1);
    SelectStep(items, view, NoCriteria, 2);
    KeepInactive(Select(items, view, NoCriteria, 2), view, NoCriteria, 2);
    SelectStep(items, view, NoCriteria, 3);
    KeepInactive(Select(items, view, NoCriteria, 3), view, NoCriteria, 3);
  }

  /** The search ignores letter case in the query; lower-casing it once, as the route does,
      selects the same items as lower-casing it per comparison, as the pages do. */
  lemma SearchIgnoresCase(x: Listed, search: string)
    ensures SearchHit(x, ToLower(search)) <==> SearchHit(x, search)
    ensures ToLower(search) == [] <==> search == []
  {
    ToLowerIdempotent(search);
  }

  /** The filter chain: each non-empty field narrows the list by one `filter` call. */
  method ApplyFilters<T>(items: seq<T>, view: T -> Listed, c: Criteria) returns (filtered: seq<T>)
    ensures filtered == SelectMatching(items, view, c)
  {
    SelectNone(items, view, c);
    filtered := items;
    for k := 0 to 4
      invariant filtered == Select(items, view, c, k)
    {
      SelectStep(items, view, c, k);
      if Field(c, k) != "" {
        filtered := Keep(filtered, view, c, k);
      } else {
        KeepInactive(filtered, view, c, k);
      }
    }
  }
}
