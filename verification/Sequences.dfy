/** Facts about lists edited in place: first-occurrence removal against filtering. */
module Sequences {

  ghost predicate NoDuplicates<T>(xs: seq<T>) {
    forall i, j :: 0 <= i < j < |xs| ==> xs[i] != xs[j]
  }

  /** The list without the first occurrence of x; the list itself when x is missing. */
  function RemoveFirst<T(==)>(xs: seq<T>, x: T): seq<T> {
    if xs == [] then []
    else if xs[0] == x then xs[1..]
    else [xs[0]] + RemoveFirst(xs[1..], x)
  }

  /** The elements satisfying keep, in order, duplicates included. */
  function Filter<T>(keep: T -> bool, xs: seq<T>): seq<T> {
    if xs == [] then []
    else if keep(xs[0]) then [xs[0]] + Filter(keep, xs[1..])
    else Filter(keep, xs[1..])
  }

  /** The elements outside gone, in order. */
  function Without<T>(xs: seq<T>, gone: set<T>): seq<T> {
    if xs == [] then []
    else if xs[0] in gone then Without(xs[1..], gone)
    else [xs[0]] + Without(xs[1..], gone)
  }

  lemma {:induction false} RemoveFirstAt<T>(xs: seq<T>, i: nat)
    requires i < |xs| && xs[i] !in xs[..i]
    ensures RemoveFirst(xs, xs[i]) == xs[..i] + xs[i + 1..]
  {
    if i == 0 {
    } else {
      assert xs[0] in xs[..i];
      assert xs[..i] == [xs[0]] + xs[1..i] && xs[1..][..i - 1] == xs[1..i];
      RemoveFirstAt(xs[1..], i - 1);
      assert xs[1..][i..] == xs[i + 1..];
    }
  }

  lemma {:induction false} RemoveFirstMissing<T>(xs: seq<T>, x: T)
    requires x !in xs
    ensures RemoveFirst(xs, x) == xs
  {
    if xs == [] {
    } else {
      RemoveFirstMissing(xs[1..], x);
    }
  }

  lemma {:induction false} WithoutMembers<T>(xs: seq<T>, gone: set<T>)
    ensures forall x :: x in Without(xs, gone) <==> x in xs && x !in gone
  {
    if xs == [] {
    } else {
      WithoutMembers(xs[1..], gone);
      assert xs == [xs[0]] + xs[1..];
    }
  }

  lemma {:induction false} WithoutNothing<T>(xs: seq<T>, gone: set<T>)
    requires forall x :: x in xs ==> x !in gone
    ensures Without(xs, gone) == xs
  {
    if xs == [] {
    } else {
      assert forall x :: x in xs[1..] ==> x in xs;
      WithoutNothing(xs[1..], gone);
    }
  }

  lemma {:induction false} WithoutAll<T>(xs: seq<T>, gone: set<T>)
    requires forall x :: x in xs ==> x in gone
    ensures Without(xs, gone) == []
  {
    if xs == [] {
    } else {
      assert forall x :: x in xs[1..] ==> x in xs;
      WithoutAll(xs[1..], gone);
    }
  }

  /** Only the part of gone that occurs in the list matters. */
  lemma {:induction false} WithoutSame<T>(xs: seq<T>, a: set<T>, b: set<T>)
    requires forall x :: x in xs ==> (x in a <==> x in b)
    ensures Without(xs, a) == Without(xs, b)
  {
    if xs == [] {
    } else {
      assert forall x :: x in xs[1..] ==> x in xs;
      WithoutSame(xs[1..], a, b);
    }
  }

  /** Removing one more element from a duplicate-free filtered list filters by one more element. */
  lemma {:induction false} RemoveFirstFromWithout<T>(xs: seq<T>, gone: set<T>, x: T)
    requires NoDuplicates(xs)
    ensures RemoveFirst(Without(xs, gone), x) == Without(xs, gone + {x})
  {
    if xs == [] {
    } else {
      var rest := xs[1..];
      assert NoDuplicates(rest);
      RemoveFirstFromWithout(rest, gone, x);
      if xs[0] == x && x !in gone {
        assert x !in rest;
        WithoutSame(rest, gone, gone + {x});
        assert ([x] + Without(rest, gone))[1..] == Without(rest, gone);
      } else if xs[0] !in gone {
        assert ([xs[0]] + Without(rest, gone))[1..] == Without(rest, gone);
      }
    }
  }

  lemma {:induction false} FilterAppend<T>(keep: T -> bool, xs: seq<T>, ys: seq<T>)
    ensures Filter(keep, xs + ys) == Filter(keep, xs) + Filter(keep, ys)
  {
    if xs == [] {
      assert xs + ys == ys;
    } else {
      FilterAppend(keep, xs[1..], ys);
      assert (xs + ys)[1..] == xs[1..] + ys;
    }
  }

  lemma {:induction false} FilterNone<T>(keep: T -> bool, xs: seq<T>)
    requires forall i :: 0 <= i < |xs| ==> !keep(xs[i])
    ensures Filter(keep, xs) == []
  {
    if xs == [] {
    } else {
      FilterNone(keep, xs[1..]);
    }
  }

  lemma {:induction false} FilterMembers<T>(keep: T -> bool, xs: seq<T>)
    ensures forall x :: x in Filter(keep, xs) <==> x in xs && keep(x)
  {
    if xs == [] {
    } else {
      FilterMembers(keep, xs[1..]);
      assert xs == [xs[0]] + xs[1..];
    }
  }
}
