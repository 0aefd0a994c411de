// Sorting by a strict order, as `std::sort` with `operator<` and Python's
// `list.sort(key=...)` are used by the registries and the runner.
module Sorting {
  /** `lt` is irreflexive and transitive: a strict (partial) order. */
  ghost predicate StrictOrder<T(!new)>(lt: (T, T) -> bool)
  {
    (forall a :: !lt(a, a)) &&
    (forall a, b, c :: lt(a, b) && lt(b, c) ==> lt(a, c))
  }

  /**
   * A strict weak order: a strict order in which being incomparable is
   * transitive, so the incomparable elements are those with equal keys.
   */
  ghost predicate StrictWeakOrder<T(!new)>(lt: (T, T) -> bool)
  {
    StrictOrder(lt) &&
    forall a, b, c :: lt(a, c) ==> lt(a, b) || lt(b, c)
  }

  /** Neither comes before the other: the two have equal keys. */
  predicate Tied<T>(lt: (T, T) -> bool, a: T, b: T)
  {
    !lt(a, b) && !lt(b, a)
  }

  /** The elements of `s` tied with `x`, in their order in `s`. */
  function TiedWith<T(!new)>(s: seq<T>, lt: (T, T) -> bool, x: T): (r: seq<T>)
    ensures |r| <= |s|
  {
    if s == [] then []
    else if Tied(lt, s[0], x) then [s[0]] + TiedWith(s[1..], lt, x)
    else TiedWith(s[1..], lt, x)
  }

  lemma {:induction false} TiedWithAppend<T(!new)>(a: seq<T>, b: seq<T>, lt: (T, T) -> bool, x: T)
    ensures TiedWith(a + b, lt, x) == TiedWith(a, lt, x) + TiedWith(b, lt, x)
  {
    if a == [] {
      assert a + b == b;
    } else {
      assert (a + b)[0] == a[0] && (a + b)[1..] == a[1..] + b;
      TiedWithAppend(a[1..], b, lt, x);
      if Tied(lt, a[0], x) {
        assert TiedWith(a + b, lt, x) == [a[0]] + TiedWith(a[1..] + b, lt, x);
      }
    }
  }

  lemma {:induction false} NoneTied<T(!new)>(s: seq<T>, lt: (T, T) -> bool, x: T)
    requires forall k :: 0 <= k < |s| ==> !Tied(lt, s[k], x)
    ensures TiedWith(s, lt, x) == []
  {
    if s != [] {
      NoneTied(s[1..], lt, x);
    }
  }

  /** The last element of a list joins the end of its ties. */
  lemma TiedWithLast<T(!new)>(s: seq<T>, lt: (T, T) -> bool, x: T)
    requires s != []
    ensures TiedWith(s, lt, x) ==
      TiedWith(s[..|s| - 1], lt, x) + if Tied(lt, s[|s| - 1], x) then [s[|s| - 1]] else []
  {
    var init, last := s[..|s| - 1], s[|s| - 1];
    assert init + [last] == s;
    TiedWithAppend(init, [last], lt, x);
    TiedWithSingle(last, lt, x);
  }

  lemma TiedWithSingle<T(!new)>(z: T, lt: (T, T) -> bool, x: T)
    ensures TiedWith([z], lt, x) == if Tied(lt, z, x) then [z] else []
  {
    assert [z][1..] == [];
  }

  /** No later element is strictly less than an earlier one. */
  ghost predicate SortedBy<T>(s: seq<T>, lt: (T, T) -> bool)
  {
    forall i, j :: 0 <= i < j < |s| ==> !lt(s[j], s[i])
  }

  /** Inserts `x` before the first element it is strictly less than. */
  function Insert<T(!new)>(x: T, s: seq<T>, lt: (T, T) -> bool): (r: seq<T>)
    requires StrictOrder(lt) && SortedBy(s, lt)
    ensures SortedBy(r, lt)
    ensures multiset(r) == multiset(s) + multiset{x}
    ensures |r| == |s| + 1
    ensures forall k :: 0 <= k < |r| ==> r[k] == x || r[k] in s
  {
    if s == [] || lt(x, s[0]) then
      [x] + s
    else
      var rest := Insert(x, s[1..], lt);
      assert s == [s[0]] + s[1..];
      InsertStep(x, s, rest, lt);
      [s[0]] + rest
  }

  /** Putting the head back in front of the rest with `x` inserted keeps the list sorted. */
  lemma InsertStep<T(!new)>(x: T, s: seq<T>, rest: seq<T>, lt: (T, T) -> bool)
    requires StrictOrder(lt) && SortedBy(s, lt) && s != [] && !lt(x, s[0])
    requires SortedBy(rest, lt) && forall k :: 0 <= k < |rest| ==> rest[k] == x || rest[k] in s[1..]
    ensures SortedBy([s[0]] + rest, lt)
  {
    forall k | 0 <= k < |rest|
      ensures !lt(rest[k], s[0])
    {
      if rest[k] != x {
        var j :| 0 <= j < |s[1..]| && s[1..][j] == rest[k];
        assert s[j + 1] == rest[k];
      }
    }
  }

  /**
   * Insertion sort: the result is ordered and a permutation of `s`; for a
   * strict weak order it is also stable (`SortByKeepsTies`).
   */
  function SortBy<T(!new)>(s: seq<T>, lt: (T, T) -> bool): (r: seq<T>)
    requires StrictOrder(lt)
    ensures SortedBy(r, lt)
    ensures multiset(r) == multiset(s)
    ensures |r| == |s|
  {
    if s == [] then []
    else
      var init := s[..|s| - 1];
      assert s == init + [s[|s| - 1]];
      Insert(s[|s| - 1], SortBy(init, lt), lt)
  }

  /**
   * Inserting `x` puts it after every element of equal key already in the
   * list, and moves none of them.
   */
  lemma {:induction false} InsertKeepsTies<T(!new)>(x: T, s: seq<T>, lt: (T, T) -> bool, y: T)
    requires StrictWeakOrder(lt) && SortedBy(s, lt)
    ensures TiedWith(Insert(x, s, lt), lt, y) == TiedWith(s, lt, y) + (if Tied(lt, x, y) then [x] else [])
  {
    if s == [] {
      assert ([x] + s)[1..] == s;
    } else if lt(x, s[0]) {
      assert ([x] + s)[1..] == s;
      if Tied(lt, x, y) {
        assert lt(y, s[0]);
        assert forall k :: 0 <= k < |s| ==> lt(y, s[k]);
        NoneTied(s, lt, y);
      }
    } else {
      var rest := Insert(x, s[1..], lt);
      assert s == [s[0]] + s[1..];
      InsertKeepsTies(x, s[1..], lt, y);
      assert ([s[0]] + rest)[1..] == rest;
    }
  }

  /**
   * The sort is stable: the elements of any one key come out in the order
   * they went in.
   */
  lemma {:induction false} SortByKeepsTies<T(!new)>(s: seq<T>, lt: (T, T) -> bool, y: T)
    requires StrictWeakOrder(lt)
    ensures TiedWith(SortBy(s, lt), lt, y) == TiedWith(s, lt, y)
  {
    if s != [] {
      var init := s[..|s| - 1];
      SortByKeepsTies(init, lt, y);
      InsertKeepsTies(s[|s| - 1], SortBy(init, lt), lt, y);
      TiedWithLast(s, lt, y);
    }
  }
}
