/**
 * The aggregation layer: filtering a table by a predicate and summing a
 * column of what is left, `queryset.filter(...).aggregate(Sum(...)) or 0`.
 * An empty selection sums to 0, never to an error.
 */
module Aggregate {

  /** The rows of `xs` that satisfy `p`, in table order. */
  function Select<T(==)>(xs: seq<T>, p: T -> bool): (r: seq<T>)
    ensures |r| <= |xs|
  {
    if xs == [] then []
    else if p(xs[0]) then [xs[0]] + Select(xs[1..], p)
    else Select(xs[1..], p)
  }

  /** Where the `k`-th selected row sits in the table. */
  lemma {:induction false} SelectedFrom<T>(xs: seq<T>, p: T -> bool, k: nat) returns (m: nat)
    requires k < |Select(xs, p)|
    ensures m < |xs| && xs[m] == Select(xs, p)[k] && p(xs[m])
    decreases |xs|
  {
    if p(xs[0]) && k == 0 {
      m := 0;
    } else {
      var m' := SelectedFrom(xs[1..], p, if p(xs[0]) then k - 1 else k);
      m := m' + 1;
    }
  }

  /** A row is selected exactly when it is in the table and satisfies `p`. */
  lemma {:induction false} SelectMembers<T>(xs: seq<T>, p: T -> bool)
    ensures forall x :: x in Select(xs, p) <==> x in xs && p(x)
    ensures multiset(Select(xs, p)) <= multiset(xs)
    decreases |xs|
  {
    if xs != [] {
      SelectMembers(xs[1..], p);
      assert xs == [xs[0]] + xs[1..];
    }
  }

  /** The sum of `amount` over `xs`; 0 for an empty table. */
  function Total<T>(xs: seq<T>, amount: T -> int): (r: int)
    ensures (forall i :: 0 <= i < |xs| ==> amount(xs[i]) > 0) ==> (r >= 0 && (r == 0 <==> xs == []))
  {
    if xs == [] then 0 else amount(xs[0]) + Total(xs[1..], amount)
  }

  lemma {:induction false} SelectAppend<T>(xs: seq<T>, ys: seq<T>, p: T -> bool)
    ensures Select(xs + ys, p) == Select(xs, p) + Select(ys, p)
    decreases |xs|
  {
    if xs != [] {
      assert (xs + ys)[0] == xs[0];
      assert (xs + ys)[1..] == xs[1..] + ys;
      SelectAppend(xs[1..], ys, p);
    } else {
      assert xs + ys == ys;
    }
  }

  lemma {:induction false} TotalAppend<T>(xs: seq<T>, ys: seq<T>, amount: T -> int)
    ensures Total(xs + ys, amount) == Total(xs, amount) + Total(ys, amount)
    decreases |xs|
  {
    if xs != [] {
      assert (xs + ys)[0] == xs[0];
      assert (xs + ys)[1..] == xs[1..] + ys;
      TotalAppend(xs[1..], ys, amount);
    } else {
      assert xs + ys == ys;
    }
  }

  /** Two predicates that agree on every row select the same rows. */
  lemma {:induction false} SelectAgree<T>(xs: seq<T>, p: T -> bool, q: T -> bool)
    requires forall i :: 0 <= i < |xs| ==> p(xs[i]) == q(xs[i])
    ensures Select(xs, p) == Select(xs, q)
    decreases |xs|
  {
    if xs != [] {
      SelectAgree(xs[1..], p, q);
    }
  }

  /** When every row satisfies `p`, the whole table is selected. */
  lemma {:induction false} SelectAll<T>(xs: seq<T>, p: T -> bool)
    requires forall i :: 0 <= i < |xs| ==> p(xs[i])
    ensures Select(xs, p) == xs
    decreases |xs|
  {
    if xs != [] {
      SelectAll(xs[1..], p);
    }
  }

  /** Rows that fail `p` can be added to the table without changing the selection. */
  lemma SelectIgnores<T>(xs: seq<T>, ys: seq<T>, p: T -> bool)
    requires forall i :: 0 <= i < |ys| ==> !p(ys[i])
    ensures Select(xs + ys, p) == Select(xs, p) && Select(ys + xs, p) == Select(xs, p)
  {
    SelectAppend(xs, ys, p);
    SelectAppend(ys, xs, p);
    SelectNone(ys, p);
  }

  lemma {:induction false} SelectNone<T>(ys: seq<T>, p: T -> bool)
    requires forall i :: 0 <= i < |ys| ==> !p(ys[i])
    ensures Select(ys, p) == []
    decreases |ys|
  {
    if ys != [] {
      SelectNone(ys[1..], p);
    }
  }

  /** Taking one row out of the middle of a table. */
  lemma {:induction false} TotalRemove<T>(xs: seq<T>, j: nat, amount: T -> int)
    requires j < |xs|
    ensures Total(xs, amount) == amount(xs[j]) + Total(xs[..j] + xs[j + 1..], amount)
  {
    assert xs == xs[..j] + ([xs[j]] + xs[j + 1..]);
    TotalAppend(xs[..j], [xs[j]] + xs[j + 1..], amount);
    TotalAppend(xs[..j], xs[j + 1..], amount);
  }

  /** Where the first row of `xs` sits in a reordering `ys`, and what is left of both. */
  lemma {:induction false} MatchFirst<T>(xs: seq<T>, ys: seq<T>) returns (j: nat)
    requires xs != [] && multiset(xs) == multiset(ys)
    ensures j < |ys| && ys[j] == xs[0]
    ensures multiset(xs[1..]) == multiset(ys[..j] + ys[j + 1..])
  {
    assert xs[0] in multiset(ys);
    j :| 0 <= j < |ys| && ys[j] == xs[0];
    var front, back := ys[..j], ys[j + 1..];
    assert ys == front + [ys[j]] + back;
    assert xs == [xs[0]] + xs[1..];
    calc {
      multiset(xs[1..]);
      multiset(xs) - multiset{xs[0]};
      multiset(ys) - multiset{ys[j]};
      multiset(front) + multiset(back);
      multiset(front + back);
    }
  }

  /** Taking one row out of the middle of a table before selecting. */
  lemma {:induction false} SelectRemove<T>(ys: seq<T>, j: nat, p: T -> bool)
    requires j < |ys|
    ensures Select(ys, p) == Select(ys[..j], p) + Select([ys[j]], p) + Select(ys[j + 1..], p)
    ensures Select(ys[..j] + ys[j + 1..], p) == Select(ys[..j], p) + Select(ys[j + 1..], p)
  {
    SelectThree(ys[..j], [ys[j]], ys[j + 1..], p);
    assert ys == ys[..j] + [ys[j]] + ys[j + 1..];
    SelectAppend(ys[..j], ys[j + 1..], p);
  }

  lemma {:induction false} SelectThree<T>(a: seq<T>, b: seq<T>, c: seq<T>, p: T -> bool)
    ensures Select(a + b + c, p) == Select(a, p) + Select(b, p) + Select(c, p)
  {
    SelectAppend(a + b, c, p);
    SelectAppend(a, b, p);
  }

  /** A sum does not depend on the order of the rows. */
  lemma {:induction false} TotalPermutation<T>(xs: seq<T>, ys: seq<T>, amount: T -> int)
    requires multiset(xs) == multiset(ys)
    ensures Total(xs, amount) == Total(ys, amount)
    decreases |xs|
  {
    if xs != [] {
      var j := MatchFirst(xs, ys);
      TotalPermutation(xs[1..], ys[..j] + ys[j + 1..], amount);
      TotalRemove(ys, j, amount);
    }
  }

  /** Selecting from a reordered table selects a reordering of the same rows. */
  lemma {:induction false} SelectPermutation<T>(xs: seq<T>, ys: seq<T>, p: T -> bool)
    requires multiset(xs) == multiset(ys)
    ensures multiset(Select(xs, p)) == multiset(Select(ys, p))
    decreases |xs|
  {
    if xs != [] {
      var j := MatchFirst(xs, ys);
      SelectPermutation(xs[1..], ys[..j] + ys[j + 1..], p);
      SelectRemove(ys, j, p);
      var sa, sy, sb := Select(ys[..j], p), Select([ys[j]], p), Select(ys[j + 1..], p);
      assert multiset(Select(ys, p)) == multiset(sa) + multiset(sy) + multiset(sb);
      assert multiset(Select(xs[1..], p)) == multiset(sa) + multiset(sb);
      SelectAppend([xs[0]], xs[1..], p);
      assert [xs[0]] + xs[1..] == xs;
    }
  }

  /** The sum of a selection is 0 exactly when nothing is selected, for positive amounts. */
  lemma {:induction false} SelectedTotalZeroIff<T>(xs: seq<T>, p: T -> bool, amount: T -> int)
    requires forall i :: 0 <= i < |xs| ==> amount(xs[i]) > 0
    ensures Total(Select(xs, p), amount) >= 0
    ensures Total(Select(xs, p), amount) == 0 <==> forall i :: 0 <= i < |xs| ==> !p(xs[i])
    decreases |xs|
  {
    if xs != [] {
      SelectedTotalZeroIff(xs[1..], p, amount);
      assert forall i :: 1 <= i < |xs| ==> xs[i] == xs[1..][i - 1];
    }
  }

  /** No two rows of `xs` share a key: a `unique_together` constraint. */
  predicate KeysDistinct<T, K(==)>(xs: seq<T>, key: T -> K) {
    forall i, j :: 0 <= i < j < |xs| ==> key(xs[i]) != key(xs[j])
  }

  /** Deleting rows never breaks a uniqueness constraint. */
  lemma {:induction false} SelectKeepsDistinct<T, K>(xs: seq<T>, p: T -> bool, key: T -> K)
    requires KeysDistinct(xs, key)
    ensures KeysDistinct(Select(xs, p), key)
    decreases |xs|
  {
    if xs != [] {
      SelectKeepsDistinct(xs[1..], p, key);
      if p(xs[0]) {
        var rest := Select(xs[1..], p);
        forall k | 0 <= k < |rest| ensures key(xs[0]) != key(rest[k]) {
          var m := SelectedFrom(xs[1..], p, k);
          assert xs[m + 1] == rest[k];
        }
        assert Select(xs, p) == [xs[0]] + rest;
      }
    }
  }

  /** Adding rows keeps a uniqueness constraint when their keys are new and distinct. */
  lemma AppendKeepsDistinct<T, K>(xs: seq<T>, ys: seq<T>, key: T -> K)
    requires KeysDistinct(xs, key) && KeysDistinct(ys, key)
    requires forall i, j :: 0 <= i < |xs| && 0 <= j < |ys| ==> key(xs[i]) != key(ys[j])
    ensures KeysDistinct(xs + ys, key)
  {
    var zs := xs + ys;
    forall i, j | 0 <= i < j < |zs| ensures key(zs[i]) != key(zs[j]) {
      if j < |xs| {
      } else if i < |xs| {
        assert zs[j] == ys[j - |xs|];
      } else {
        assert zs[i] == ys[i - |xs|] && zs[j] == ys[j - |xs|];
      }
    }
  }

  /** Something is selected exactly when some row satisfies `p`: `queryset.exists()`. */
  lemma {:induction false} SelectNonEmptyIff<T>(xs: seq<T>, p: T -> bool)
    ensures |Select(xs, p)| > 0 <==> exists i :: 0 <= i < |xs| && p(xs[i])
    decreases |xs|
  {
    if xs != [] {
      SelectNonEmptyIff(xs[1..], p);
      if exists i :: 1 <= i < |xs| && p(xs[i]) {
        var i :| 1 <= i < |xs| && p(xs[i]);
        assert xs[1..][i - 1] == xs[i];
      }
    }
  }
}
