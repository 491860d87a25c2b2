/** The collection predicates of internal/util.go. Each one walks the
    list with a loop; `CountOf` is the specification `Count` is proved
    against, and the lemmas below say what it means. */
module Util {
  import opened Wrappers

  /** The number of elements of `items` that satisfy `cond`. */
  function CountOf<T>(items: seq<T>, cond: T -> bool): nat
  {
    if |items| == 0 then 0
    else CountOf(items[..|items| - 1], cond) + (if cond(items[|items| - 1]) then 1 else 0)
  }

  /** The positions of `items` whose element satisfies `cond`. */
  ghost function PositionsWhere<T>(items: seq<T>, cond: T -> bool): set<int>
  {
    set i | 0 <= i < |items| && cond(items[i])
  }

  /** A count never exceeds the length of the list. */
  lemma {:induction false} CountOfBounded<T>(items: seq<T>, cond: T -> bool)
    ensures CountOf(items, cond) <= |items|
  {
    if |items| > 0 {
      CountOfBounded(items[..|items| - 1], cond);
    }
  }

  /** `CountOf` is the number of positions whose element satisfies `cond`. */
  lemma {:induction false} CountOfIsPositionCount<T>(items: seq<T>, cond: T -> bool)
    ensures CountOf(items, cond) == |PositionsWhere(items, cond)|
  {
    if |items| > 0 {
      var n := |items| - 1;
      var init := items[..n];
      CountOfIsPositionCount(init, cond);
      var before := PositionsWhere(init, cond);
      assert forall i :: 0 <= i < n ==> init[i] == items[i];
      if cond(items[n]) {
        assert PositionsWhere(items, cond) == before + {n};
        assert n !in before;
      } else {
        assert PositionsWhere(items, cond) == before;
      }
    } else {
      assert PositionsWhere(items, cond) == {};
    }
  }

  /** The condition "`p` or `q`". */
  function Either<T>(p: T -> bool, q: T -> bool): T -> bool
  {
    x => p(x) || q(x)
  }

  /** Counts of two conditions that never hold together add up. */
  lemma {:induction false} CountOfDisjoint<T>(items: seq<T>, p: T -> bool, q: T -> bool)
    requires forall x :: !(p(x) && q(x))
    ensures CountOf(items, p) + CountOf(items, q) == CountOf(items, Either(p, q))
  {
    if |items| > 0 {
      CountOfDisjoint(items[..|items| - 1], p, q);
    }
  }

  /** `Contains` (internal/util.go:9-17): true exactly when some element equals `value`. */
  method Contains<T(==)>(items: seq<T>, value: T) returns (found: bool)
    ensures found <==> value in items
  {
    for i := 0 to |items|
      invariant value !in items[..i]
    {
      if items[i] == value {
        return true;
      }
      assert items[..i + 1] == items[..i] + [items[i]];
    }
    assert items[..|items|] == items;
    return false;
  }

  /** `One` (internal/util.go:19-27): the first element satisfying `cond`, or nothing. */
  method One<T>(items: seq<T>, cond: T -> bool) returns (first: Option<T>)
    ensures first.None? <==> forall i :: 0 <= i < |items| ==> !cond(items[i])
    ensures first.Some? ==>
      exists k :: 0 <= k < |items| && items[k] == first.value && cond(first.value) &&
        forall j :: 0 <= j < k ==> !cond(items[j])
  {
    for i := 0 to |items|
      invariant forall j :: 0 <= j < i ==> !cond(items[j])
    {
      if cond(items[i]) {
        return Some(items[i]);
      }
    }
    return None;
  }

  /** `Count` (internal/util.go:29-38). */
  method Count<T>(items: seq<T>, cond: T -> bool) returns (count: nat)
    ensures count == CountOf(items, cond)
  {
    count := 0;
    for i := 0 to |items|
      invariant count == CountOf(items[..i], cond)
    {
      assert items[..i + 1][..i] == items[..i];
      if cond(items[i]) {
        count := count + 1;
      }
    }
    assert items[..|items|] == items;
  }

  /** `Any` (internal/util.go:40-48): false on an empty list. */
  method Any<T>(items: seq<T>, cond: T -> bool) returns (some: bool)
    ensures some <==> exists i :: 0 <= i < |items| && cond(items[i])
  {
    for i := 0 to |items|
      invariant forall j :: 0 <= j < i ==> !cond(items[j])
    {
      if cond(items[i]) {
        return true;
      }
    }
    return false;
  }

  /** `All` (internal/util.go:50-58): true on an empty list. */
  method All<T>(items: seq<T>, cond: T -> bool) returns (every: bool)
    ensures every <==> forall i :: 0 <= i < |items| ==> cond(items[i])
  {
    for i := 0 to |items|
      invariant forall j :: 0 <= j < i ==> cond(items[j])
    {
      if !cond(items[i]) {
        return false;
      }
    }
    return true;
  }
}
