/** Concatenating what each element contributes, and why the order of the elements only reorders the result. */
module Gathering {
  import opened Base
  import opened Sorting

  function Gather<A, B>(f: A -> seq<B>, xs: seq<A>): seq<B> {
    if xs == [] then [] else f(xs[0]) + Gather(f, xs[1..])
  }

  lemma {:induction false} GatherConcat<A, B>(f: A -> seq<B>, xs: seq<A>, ys: seq<A>)
    ensures Gather(f, xs + ys) == Gather(f, xs) + Gather(f, ys)
  {
    if xs == [] {
      assert xs + ys == ys;
    } else {
      assert (xs + ys)[1..] == xs[1..] + ys;
      GatherConcat(f, xs[1..], ys);
    }
  }

  lemma GatherSnoc<A, B>(f: A -> seq<B>, xs: seq<A>, x: A)
    ensures Gather(f, xs + [x]) == Gather(f, xs) + f(x)
  {
    GatherConcat(f, xs, [x]);
    assert Gather(f, [x]) == f(x) + Gather(f, []);
  }

  /** Where an element of one arrangement sits in another, and the rest of it. */
  lemma TakeOut<A>(xs: seq<A>, ys: seq<A>) returns (k: nat)
    requires xs != [] && multiset(xs) == multiset(ys)
    ensures k < |ys| && ys[k] == xs[0] && multiset(ys[..k] + ys[k + 1..]) == multiset(xs[1..])
  {
    assert xs[0] in multiset(ys);
    k :| 0 <= k < |ys| && ys[k] == xs[0];
    assert ys == ys[..k] + [ys[k]] + ys[k + 1..];
    assert xs == [xs[0]] + xs[1..];
    var rest := ys[..k] + ys[k + 1..];
    assert multiset(ys) == multiset(rest) + multiset{xs[0]};
    assert multiset(xs) == multiset(xs[1..]) + multiset{xs[0]};
    assert multiset(rest) == multiset(ys) - multiset{xs[0]};
  }

  lemma {:induction false} GatherPermutes<A, B>(f: A -> seq<B>, xs: seq<A>, ys: seq<A>)
    requires multiset(xs) == multiset(ys)
    ensures multiset(Gather(f, xs)) == multiset(Gather(f, ys))
    decreases |xs|
  {
    if xs == [] {
      assert |multiset(ys)| == 0;
    } else {
      var k := TakeOut(xs, ys);
      var a, b := ys[..k], ys[k + 1..];
      GatherPermutes(f, xs[1..], a + b);
      assert ys == a + ([ys[k]] + b);
      GatherConcat(f, a, b);
      GatherConcat(f, a, [ys[k]] + b);
      assert ([ys[k]] + b)[1..] == b;
    }
  }

  lemma {:induction false} GatherHas<A, B>(f: A -> seq<B>, xs: seq<A>, b: B)
    ensures b in Gather(f, xs) <==> exists x :: x in xs && b in f(x)
  {
    if xs != [] {
      GatherHas(f, xs[1..], b);
      assert xs == [xs[0]] + xs[1..];
    }
  }

  function Total(xs: seq<real>): real {
    if xs == [] then 0.0 else Total(xs[..|xs| - 1]) + Last(xs)
  }

  lemma {:induction false} TotalConcat(xs: seq<real>, ys: seq<real>)
    ensures Total(xs + ys) == Total(xs) + Total(ys)
  {
    if ys == [] {
      assert xs + ys == xs;
    } else {
      assert (xs + ys)[..|xs| + |ys| - 1] == xs + ys[..|ys| - 1];
      TotalConcat(xs, ys[..|ys| - 1]);
    }
  }

  lemma {:induction false} TotalPermutes(xs: seq<real>, ys: seq<real>)
    requires multiset(xs) == multiset(ys)
    ensures Total(xs) == Total(ys)
    decreases |xs|
  {
    if xs == [] {
      assert |multiset(ys)| == 0;
    } else {
      var k := TakeOut(xs, ys);
      var a, b := ys[..k], ys[k + 1..];
      TotalPermutes(xs[1..], a + b);
      assert ys == a + [ys[k]] + b && xs == [xs[0]] + xs[1..];
      TotalConcat(a, b);
      TotalConcat(a + [ys[k]], b);
      TotalConcat([xs[0]], xs[1..]);
      assert (a + [ys[k]])[..k] == a;
      assert [xs[0]][..0] == [];
    }
  }

  lemma DistinctCounts<A>(xs: seq<A>, x: A)
    requires Distinct(xs)
    ensures multiset(xs)[x] == if x in xs then 1 else 0
  {
    if x in xs {
      var k :| 0 <= k < |xs| && xs[k] == x;
      assert xs == xs[..k] + [x] + xs[k + 1..];
      assert x !in xs[..k] && x !in xs[k + 1..];
    }
  }

  /** Two lists without repetitions and with the same elements are arrangements of each other. */
  lemma DistinctSameElements<A>(xs: seq<A>, ys: seq<A>)
    requires Distinct(xs) && Distinct(ys) && forall x :: x in xs <==> x in ys
    ensures multiset(xs) == multiset(ys)
  {
    forall x ensures multiset(xs)[x] == multiset(ys)[x] {
      DistinctCounts(xs, x);
      DistinctCounts(ys, x);
    }
  }

  lemma CountTwice<A>(s: seq<A>, i: nat, j: nat)
    requires i < j < |s| && s[i] == s[j]
    ensures multiset(s)[s[i]] >= 2
  {
    assert s == s[..j] + s[j..];
    assert s[i] == s[..j][i] && s[i] == s[j..][0];
    assert s[i] in s[..j] && s[i] in s[j..];
  }

  ghost predicate DistinctBy<A, K(!new)>(key: A -> K, xs: seq<A>) {
    forall i, j :: 0 <= i < j < |xs| ==> key(xs[i]) != key(xs[j])
  }

  /** Rearranging keeps keys distinct. */
  lemma DistinctByPermutes<A, K(!new)>(key: A -> K, xs: seq<A>, ys: seq<A>)
    requires DistinctBy(key, xs) && multiset(xs) == multiset(ys)
    ensures DistinctBy(key, ys)
  {
    SameElements(xs, ys);
    forall i, j | 0 <= i < j < |xs| ensures xs[i] != xs[j] { assert key(xs[i]) != key(xs[j]); }
    forall i, j | 0 <= i < j < |ys| ensures key(ys[i]) != key(ys[j]) {
      assert ys[i] in xs && ys[j] in xs;
      var a :| 0 <= a < |xs| && xs[a] == ys[i];
      var b :| 0 <= b < |xs| && xs[b] == ys[j];
      DistinctCounts(xs, ys[i]);
      if ys[i] == ys[j] { CountTwice(ys, i, j); }
      assert a != b;
    }
  }
}
