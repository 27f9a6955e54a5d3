/** Sums over a table, read from its first row to its last, and how they react to inserts and updates. */
module Sums {
  function Sum<T>(s: seq<T>, f: T -> int): int
  {
    if s == [] then 0 else Sum(s[..|s| - 1], f) + f(s[|s| - 1])
  }

  lemma SumOfOneMore<T>(s: seq<T>, x: T, f: T -> int)
    ensures Sum(s + [x], f) == Sum(s, f) + f(x)
  {
    assert (s + [x])[..|s|] == s;
  }

  lemma {:induction false} SumOfConcat<T>(s: seq<T>, t: seq<T>, f: T -> int)
    ensures Sum(s + t, f) == Sum(s, f) + Sum(t, f)
  {
    if t == [] {
      assert s + t == s;
    } else {
      var n := |t| - 1;
      SumOfConcat(s, t[..n], f);
      assert (s + t)[..|s + t| - 1] == s + t[..n];
    }
  }

  lemma {:induction false} SumOfUpdate<T>(s: seq<T>, i: nat, x: T, f: T -> int)
    requires i < |s|
    ensures Sum(s[i := x], f) == Sum(s, f) - f(s[i]) + f(x)
  {
    var n := |s| - 1;
    if i == n {
      assert s[i := x][..n] == s[..n];
    } else {
      SumOfUpdate(s[..n], i, x, f);
      assert s[i := x][..n] == s[..n][i := x];
    }
  }

  lemma SumOfInsertion<T>(a: seq<T>, x: T, b: seq<T>, f: T -> int)
    ensures Sum(a + [x] + b, f) == Sum(a + b, f) + f(x)
  {
    SumOfConcat(a, b, f);
    SumOfConcat(a + [x], b, f);
    SumOfOneMore(a, x, f);
  }

  lemma SplitAround<T>(s: seq<T>, i: nat)
    requires i < |s|
    ensures s == s[..i] + [s[i]] + s[i + 1..]
  {
  }

  lemma SumOfRemoval<T>(s: seq<T>, i: nat, f: T -> int)
    requires i < |s|
    ensures Sum(s[..i] + s[i + 1..], f) == Sum(s, f) - f(s[i])
  {
    SplitAround(s, i);
    SumOfInsertion(s[..i], s[i], s[i + 1..], f);
  }

  // Two versions of a table: rows may be added without weight, and at most one row changes its weight.
  lemma {:induction false} SumChangesAt<T>(s: seq<T>, t: seq<T>, f: T -> int, k: nat)
    requires |s| <= |t|
    requires forall i :: 0 <= i < |s| && i != k ==> f(t[i]) == f(s[i])
    requires forall i :: |s| <= i < |t| ==> f(t[i]) == 0
    ensures Sum(t, f) == Sum(s, f) + if k < |s| then f(t[k]) - f(s[k]) else 0
  {
    if |t| > 0 {
      var n := |t| - 1;
      if |s| == |t| {
        SumChangesAt(s[..n], t[..n], f, k);
      } else {
        SumChangesAt(s, t[..n], f, k);
      }
    }
  }

  lemma SumOfTwo<T>(a: T, b: T, f: T -> int)
    ensures Sum([a, b], f) == f(a) + f(b)
  {
    assert [a, b] == [a] + [b];
    SumOfConcat([a], [b], f);
  }

  lemma SumOfThree<T>(a: T, b: T, c: T, f: T -> int)
    ensures Sum([a, b, c], f) == f(a) + f(b) + f(c)
  {
    assert [a, b, c] == [a, b] + [c];
    SumOfConcat([a, b], [c], f);
    SumOfTwo(a, b, f);
  }

  // Two tables of the same length whose rows weigh the same weigh the same.
  lemma {:induction false} SumsAgree<T, U>(s: seq<T>, t: seq<U>, f: T -> int, g: U -> int)
    requires |s| == |t|
    requires forall i :: 0 <= i < |s| ==> f(s[i]) == g(t[i])
    ensures Sum(s, f) == Sum(t, g)
  {
    if s != [] {
      SumsAgree(s[..|s| - 1], t[..|s| - 1], f, g);
    }
  }

  lemma {:induction false} SumAtMost<T, U>(s: seq<T>, t: seq<U>, f: T -> int, g: U -> int)
    requires |s| == |t|
    requires forall i :: 0 <= i < |s| ==> f(s[i]) <= g(t[i])
    ensures Sum(s, f) <= Sum(t, g)
  {
    if s != [] {
      SumAtMost(s[..|s| - 1], t[..|s| - 1], f, g);
    }
  }

  // Pointwise at most, and strictly less at one place, gives a strictly smaller sum.
  lemma {:induction false} SumStrictlyLess<T, U>(s: seq<T>, t: seq<U>, f: T -> int, g: U -> int, k: nat)
    requires |s| == |t| && k < |s|
    requires forall i :: 0 <= i < |s| ==> f(s[i]) <= g(t[i])
    requires f(s[k]) < g(t[k])
    ensures Sum(s, f) < Sum(t, g)
  {
    var n := |s| - 1;
    if k == n {
      SumAtMost(s[..n], t[..n], f, g);
    } else {
      SumStrictlyLess(s[..n], t[..n], f, g, k);
    }
  }

  lemma {:induction false} SumBounds<T>(s: seq<T>, f: T -> int, low: int, high: int)
    requires forall x :: x in s ==> low <= f(x) <= high
    ensures low * |s| <= Sum(s, f) <= high * |s|
  {
    if s != [] {
      SumBounds(s[..|s| - 1], f, low, high);
    }
  }

  lemma {:induction false} SumNotNegative<T>(s: seq<T>, f: T -> int)
    requires forall x :: x in s ==> f(x) >= 0
    ensures Sum(s, f) >= 0
  {
    if s != [] {
      assert s[|s| - 1] in s;
      SumNotNegative(s[..|s| - 1], f);
    }
  }

  // Sums are linear: a*f + b*g sums to a*Sum(f) + b*Sum(g).
  lemma {:induction false} SumIsLinear<T>(s: seq<T>, f: T -> int, g: T -> int, h: T -> int, a: int, b: int)
    requires forall x :: x in s ==> h(x) == a * f(x) + b * g(x)
    ensures Sum(s, h) == a * Sum(s, f) + b * Sum(s, g)
  {
    if s != [] {
      var n := |s| - 1;
      SumIsLinear(s[..n], f, g, h, a, b);
      assert s[n] in s;
      assert a * (Sum(s[..n], f) + f(s[n])) == a * Sum(s[..n], f) + a * f(s[n]);
      assert b * (Sum(s[..n], g) + g(s[n])) == b * Sum(s[..n], g) + b * g(s[n]);
    }
  }

  // ---------- sums by label ----------

  function Only<T, L(==)>(w: T -> int, tag: T -> L, l: L): T -> int { x => if tag(x) == l then w(x) else 0 }

  function PerLabel<T, L(==)>(items: seq<T>, w: T -> int, tag: T -> L): L -> int { l => Sum(items, Only(w, tag, l)) }

  function PointMass<L(==)>(at: L, value: int): L -> int { l => if l == at then value else 0 }

  ghost predicate Distinct<L>(s: seq<L>) { forall i, j :: 0 <= i < j < |s| ==> s[i] != s[j] }

  // The ids of a table with n rows.
  function Indices(n: nat): seq<nat> { seq(n, i requires 0 <= i < n => i) }

  lemma {:induction false} SumOfPointMass<L>(labels: seq<L>, at: L, value: int)
    requires Distinct(labels)
    ensures Sum(labels, PointMass(at, value)) == if at in labels then value else 0
  {
    if labels != [] {
      var n := |labels| - 1;
      SumOfPointMass(labels[..n], at, value);
      assert labels[n] in labels && labels[n] !in labels[..n];
      assert labels == labels[..n] + [labels[n]];
    }
  }

  /** A table adds up to the same whether read row by row or label by label. */
  lemma {:induction false} SumByLabel<T, L>(items: seq<T>, w: T -> int, tag: T -> L, labels: seq<L>)
    requires Distinct(labels)
    requires forall x :: x in items && w(x) != 0 ==> tag(x) in labels
    ensures Sum(items, w) == Sum(labels, PerLabel(items, w, tag))
  {
    if items == [] {
      SumBounds(labels, PerLabel(items, w, tag), 0, 0);
    } else {
      var n := |items| - 1;
      var x := items[n];
      assert x in items;
      SumByLabel(items[..n], w, tag, labels);
      forall l | l in labels
        ensures PerLabel(items, w, tag)(l) == 1 * PerLabel(items[..n], w, tag)(l) + 1 * PointMass(tag(x), w(x))(l)
      {
      }
      SumIsLinear(labels, PerLabel(items[..n], w, tag), PointMass(tag(x), w(x)), PerLabel(items, w, tag), 1, 1);
      SumOfPointMass(labels, tag(x), w(x));
    }
  }

  /** A column of zeros and ones with at most one 1. */
  lemma {:induction false} SumOfAtMostOne<T>(s: seq<T>, f: T -> int)
    requires forall x :: x in s ==> 0 <= f(x) <= 1
    requires forall i, j :: 0 <= i < j < |s| && f(s[i]) == 1 ==> f(s[j]) == 0
    ensures 0 <= Sum(s, f) <= 1
    ensures Sum(s, f) == 1 <==> exists x :: x in s && f(x) == 1
  {
    if s != [] {
      var n := |s| - 1;
      SumOfAtMostOne(s[..n], f);
      assert s[n] in s;
      forall x | x in s[..n] && f(x) == 1 ensures f(s[n]) == 0 {
        var i :| 0 <= i < n && s[i] == x;
      }
      assert s == s[..n] + [s[n]];
    }
  }
}
