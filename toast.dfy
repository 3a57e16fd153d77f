/** The toast queue: notices appended with defaults by `show`, deleted by id by `remove`, and the
    guard that refuses to hand out the queue outside its provider. */
module Toast {
  import opened Common

  datatype ToastKind = Success | Error | Info | Warning

  const DefaultKind := Info
  const DefaultDurationMs := 3500

  datatype ToastOptions = ToastOptions(message: string, kind: Option<ToastKind>, durationMs: Option<int>)

  datatype ToastItem = ToastItem(id: string, message: string, kind: ToastKind, durationMs: int)

  /** The item `show` builds: the message as given, a missing kind or duration replaced by its
      default. */
  function ItemOf(options: ToastOptions, id: string): (t: ToastItem)
    ensures t.id == id && t.message == options.message
    ensures options.kind.None? ==> t.kind == DefaultKind
    ensures options.kind.Some? ==> t.kind == options.kind.value
    ensures options.durationMs.None? ==> t.durationMs == DefaultDurationMs
    ensures options.durationMs.Some? ==> t.durationMs == options.durationMs.value
  {
    ToastItem(id, options.message, options.kind.GetOr(DefaultKind), options.durationMs.GetOr(DefaultDurationMs))
  }

  /** No item of `s` carries `id`. */
  predicate Absent(s: seq<ToastItem>, id: string) {
    forall k :: 0 <= k < |s| ==> s[k].id != id
  }

  /** `prev.filter((t) => t.id !== id)`. */
  function Without(s: seq<ToastItem>, id: string): seq<ToastItem>
  {
    if s == [] then []
    else if s[0].id != id then [s[0]] + Without(s[1..], id)
    else Without(s[1..], id)
  }

  /** The filter deletes every item with the id, keeps every other item, changes no order, and
      leaves a queue without the id as it was. */
  lemma {:induction false} WithoutSpec(s: seq<ToastItem>, id: string)
    ensures Absent(Without(s, id), id)
    ensures forall t :: t in Without(s, id) <==> t in s && t.id != id
    ensures IsSubsequence(Without(s, id), s)
    ensures Absent(s, id) ==> Without(s, id) == s
    decreases |s|
  {
    if s != [] {
      WithoutSpec(s[1..], id);
      var rest := Without(s[1..], id);
      if s[0].id != id {
        assert ([s[0]] + rest)[1..] == rest;
      }
    }
  }

  /** A queue without the id is left as it was. */
  lemma {:induction false} WithoutAbsent(s: seq<ToastItem>, id: string)
    requires Absent(s, id)
    ensures Without(s, id) == s
    decreases |s|
  {
    if s != [] {
      WithoutAbsent(s[1..], id);
    }
  }

  /** Removing twice is removing once, and removals by different ids commute. */
  lemma {:induction false} WithoutTwice(s: seq<ToastItem>, a: string, b: string)
    ensures Without(Without(s, a), a) == Without(s, a)
    ensures Without(Without(s, a), b) == Without(Without(s, b), a)
    decreases |s|
  {
    if s != [] {
      WithoutTwice(s[1..], a, b);
      var ra := Without(s[1..], a);
      var rb := Without(s[1..], b);
      if s[0].id != a {
        assert Without(s, a) == [s[0]] + ra;
        assert ([s[0]] + ra)[1..] == ra;
      }
      if s[0].id != b {
        assert Without(s, b) == [s[0]] + rb;
        assert ([s[0]] + rb)[1..] == rb;
      }
    }
  }

  /** One step of the filter. */
  lemma WithoutCons(x: ToastItem, s: seq<ToastItem>, id: string)
    ensures Without([x] + s, id) == if x.id != id then [x] + Without(s, id) else Without(s, id)
  {
    assert ([x] + s)[1..] == s;
  }

  /** Removal distributes over concatenation. */
  lemma {:induction false} WithoutConcat(s: seq<ToastItem>, t: seq<ToastItem>, id: string)
    ensures Without(s + t, id) == Without(s, id) + Without(t, id)
    decreases |s|
  {
    if s == [] {
      assert s + t == t;
    } else {
      assert s == [s[0]] + s[1..];
      assert s + t == [s[0]] + (s[1..] + t);
      WithoutConcat(s[1..], t, id);
      WithoutCons(s[0], s[1..], id);
      WithoutCons(s[0], s[1..] + t, id);
    }
  }

  /** The queue of the provider. */
  class ToastProvider {
    var toasts: seq<ToastItem>

    constructor ()
      ensures toasts == []
    {
      toasts := [];
    }

    /** `show(options)` with the id it draws: one item is appended at the end. The timer that
        later calls `remove(id)` is the caller's business. */
    method Show(options: ToastOptions, id: string) returns (item: ToastItem)
      modifies this
      ensures item == ItemOf(options, id)
      ensures toasts == old(toasts) + [item]
    {
      item := ItemOf(options, id);
      toasts := toasts + [item];
    }

    /** `remove(id)`: every item with that id leaves, the rest stay in order. */
    method Remove(id: string)
      modifies this
      ensures toasts == Without(old(toasts), id)
      ensures Absent(toasts, id) && IsSubsequence(toasts, old(toasts))
      ensures Absent(old(toasts), id) ==> toasts == old(toasts)
    {
      WithoutSpec(toasts, id);
      toasts := Without(toasts, id);
    }
  }

  /** Showing a notice under a fresh id and removing it when its timer fires restores the queue,
      even when other notices were shown in between. */
  lemma ShowThenRemove(before: seq<ToastItem>, options: ToastOptions, id: string, later: seq<ToastItem>)
    requires Absent(before, id) && Absent(later, id)
    ensures Without(before + [ItemOf(options, id)] + later, id) == before + later
  {
    var item := ItemOf(options, id);
    WithoutConcat(before + [item], later, id);
    WithoutConcat(before, [item], id);
    WithoutAbsent(before, id);
    WithoutAbsent(later, id);
    assert [item] + [] == [item];
    WithoutCons(item, [], id);
  }

  const OutsideProvider := "useToast must be used within ToastProvider"

  /** `useToast()`: the provider's value, or the error it throws when there is none. */
  function UseToast<C>(context: Option<C>): (r: Result<C, string>)
    ensures r.Err? <==> context.None?
    ensures r.Err? ==> r.error == OutsideProvider
    ensures r.Ok? ==> Some(r.value) == context
  {
    match context
    case None => Err(OutsideProvider)
    case Some(c) => Ok(c)
  }
}
