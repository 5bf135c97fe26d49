/**
 * Facts about the array idioms the route handlers use on lists of ids:
 * `filter((v) => !v.equals(x))`, `push`, and membership via `some`.
 */
module Seqs {

  /** No element occurs twice. */
  predicate NoDup<T(==)>(s: seq<T>)
    decreases |s|
  {
    |s| == 0 || (s[0] !in s[1..] && NoDup(s[1..]))
  }

  /** No element of `a` occurs in `b`. */
  predicate Disjoint<T(==, !new)>(a: seq<T>, b: seq<T>) {
    forall x :: x in a ==> x !in b
  }

  /** `s` with every occurrence of `x` dropped, the others kept in order. */
  function Without<T(==, !new)>(s: seq<T>, x: T): (r: seq<T>)
    ensures forall y :: y in r <==> y in s && y != x
    ensures x !in s ==> r == s
    ensures |r| <= |s|
    decreases |s|
  {
    if |s| == 0 then []
    else if s[0] == x then Without(s[1..], x)
    else [s[0]] + Without(s[1..], x)
  }

  /** The elements of `s` that do not occur in `d`, in their order in `s`. */
  function KeepNotIn<T(==, !new)>(s: seq<T>, d: seq<T>): (r: seq<T>)
    ensures forall y :: y in r <==> y in s && y !in d
    ensures |r| <= |s|
    decreases |s|
  {
    if |s| == 0 then []
    else (if s[0] in d then [] else [s[0]]) + KeepNotIn(s[1..], d)
  }

  /** Remove `x` when present, append it when absent. */
  function Toggled<T(==, !new)>(s: seq<T>, x: T): (r: seq<T>)
    ensures x in r <==> x !in s
    ensures forall y :: y != x ==> (y in r <==> y in s)
  {
    if x in s then Without(s, x) else s + [x]
  }

  lemma {:induction false} WithoutAppend<T(!new)>(a: seq<T>, b: seq<T>, x: T)
    ensures Without(a + b, x) == Without(a, x) + Without(b, x)
    decreases |a|
  {
    if |a| == 0 {
      assert a + b == b;
    } else {
      assert (a + b)[0] == a[0];
      assert (a + b)[1..] == a[1..] + b;
      WithoutAppend(a[1..], b, x);
    }
  }

  lemma {:induction false} KeepNotInAppend<T(!new)>(a: seq<T>, b: seq<T>, d: seq<T>)
    ensures KeepNotIn(a + b, d) == KeepNotIn(a, d) + KeepNotIn(b, d)
    decreases |a|
  {
    if |a| == 0 {
      assert a + b == b;
    } else {
      assert (a + b)[0] == a[0];
      assert (a + b)[1..] == a[1..] + b;
      KeepNotInAppend(a[1..], b, d);
    }
  }

  lemma {:induction false} KeepNotInNothing<T(!new)>(s: seq<T>)
    ensures KeepNotIn(s, []) == s
    decreases |s|
  {
    if |s| > 0 {
      KeepNotInNothing(s[1..]);
    }
  }

  /** Filtering out one more id after the others is filtering out all of them at once. */
  lemma {:induction false} WithoutKeepNotIn<T(!new)>(s: seq<T>, d: seq<T>, x: T)
    ensures Without(KeepNotIn(s, d), x) == KeepNotIn(s, d + [x])
    decreases |s|
  {
    if |s| > 0 {
      var head := if s[0] in d then [] else [s[0]];
      WithoutAppend(head, KeepNotIn(s[1..], d), x);
      WithoutKeepNotIn(s[1..], d, x);
      assert Without(head, x) == (if s[0] in d + [x] then [] else [s[0]]);
    }
  }

  lemma {:induction false} NoDupAppendOne<T(!new)>(s: seq<T>, x: T)
    requires NoDup(s) && x !in s
    ensures NoDup(s + [x])
    decreases |s|
  {
    if |s| > 0 {
      assert (s + [x])[0] == s[0];
      assert (s + [x])[1..] == s[1..] + [x];
      NoDupAppendOne(s[1..], x);
    }
  }

  lemma {:induction false} NoDupWithout<T(!new)>(s: seq<T>, x: T)
    requires NoDup(s)
    ensures NoDup(Without(s, x))
    decreases |s|
  {
    if |s| > 0 {
      NoDupWithout(s[1..], x);
    }
  }

  /** Toggling twice restores membership, and restores the very list when `x` was absent. */
  lemma ToggledTwice<T(!new)>(s: seq<T>, x: T)
    ensures forall y :: y in Toggled(Toggled(s, x), x) <==> y in s
    ensures x !in s ==> Toggled(Toggled(s, x), x) == s
  {
    if x !in s {
      WithoutAppend(s, [x], x);
    }
  }

  lemma ToggledNoDup<T(!new)>(s: seq<T>, x: T)
    requires NoDup(s)
    ensures NoDup(Toggled(s, x))
  {
    if x in s {
      NoDupWithout(s, x);
    } else {
      NoDupAppendOne(s, x);
    }
  }
}
