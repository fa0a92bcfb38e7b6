/** A comparison sort and the fact that makes its result independent of the input order. */
module Sorting {

  /** `le` is a total order on the elements of `s`. */
  ghost predicate OrderOn<T(!new)>(le: (T, T) -> bool, s: seq<T>) {
    && (forall x, y :: x in s && y in s ==> le(x, y) || le(y, x))
    && (forall x, y :: x in s && y in s && le(x, y) && le(y, x) ==> x == y)
    && (forall x, y, z :: x in s && y in s && z in s && le(x, y) && le(y, z) ==> le(x, z))
  }

  ghost predicate Sorted<T>(le: (T, T) -> bool, s: seq<T>) {
    forall i, j :: 0 <= i <= j < |s| ==> le(s[i], s[j])
  }

  function Insert<T>(le: (T, T) -> bool, x: T, s: seq<T>): (r: seq<T>)
    ensures multiset(r) == multiset(s) + multiset{x}
  {
    if s == [] then [x]
    else if le(x, s[0]) then
      assert [x] + s == [x] + s;
      [x] + s
    else
      assert s == [s[0]] + s[1..];
      [s[0]] + Insert(le, x, s[1..])
  }

  function Sort<T>(le: (T, T) -> bool, s: seq<T>): (r: seq<T>)
    ensures multiset(r) == multiset(s)
    ensures |r| == |s|
  {
    if s == [] then []
    else
      assert s == [s[0]] + s[1..];
      var r := Insert(le, s[0], Sort(le, s[1..]));
      assert |multiset(r)| == |multiset(s)|;
      r
  }

  lemma SameElements<T>(s: seq<T>, t: seq<T>)
    requires multiset(s) == multiset(t)
    ensures forall x :: x in s <==> x in t
    ensures |s| == |t|
  {
    assert |multiset(s)| == |multiset(t)|;
    forall x ensures x in s <==> x in t {
      assert x in s <==> x in multiset(s);
      assert x in t <==> x in multiset(t);
    }
  }

  lemma {:induction false} InsertSorted<T(!new)>(le: (T, T) -> bool, x: T, s: seq<T>)
    requires OrderOn(le, [x] + s) && Sorted(le, s)
    ensures Sorted(le, Insert(le, x, s))
  {
    if s != [] && !le(x, s[0]) {
      assert x in [x] + s && s[0] in [x] + s;
      forall y | y in [x] + s[1..] ensures y in [x] + s {}
      InsertSorted(le, x, s[1..]);
      var r := Insert(le, x, s[1..]);
      SameElements(r, s[1..] + [x]);
      forall y | y in r ensures le(s[0], y) {
        if y in s[1..] { var k :| 0 <= k < |s| - 1 && s[1..][k] == y; assert s[k + 1] == y; }
      }
      assert forall j :: 0 <= j < |r| ==> r[j] in r;
    } else if s != [] {
      assert x in [x] + s && s[0] in [x] + s;
      forall j | 0 <= j < |s| ensures le(x, s[j]) {
        assert s[j] in [x] + s && le(s[0], s[j]);
      }
    } else {
      assert x in [x] + s;
    }
  }

  lemma {:induction false} SortSorted<T(!new)>(le: (T, T) -> bool, s: seq<T>)
    requires OrderOn(le, s)
    ensures Sorted(le, Sort(le, s))
  {
    if s != [] {
      forall y | y in s[1..] ensures y in s {}
      SortSorted(le, s[1..]);
      var r := Sort(le, s[1..]);
      SameElements(r, s[1..]);
      forall y | y in [s[0]] + r ensures y in s {}
      InsertSorted(le, s[0], r);
    }
  }

  /** Two sorted arrangements of the same elements are the same sequence. */
  lemma {:induction false} SortedUnique<T(!new)>(le: (T, T) -> bool, s: seq<T>, t: seq<T>)
    requires OrderOn(le, s)
    requires Sorted(le, s) && Sorted(le, t)
    requires multiset(s) == multiset(t)
    ensures s == t
  {
    SameElements(s, t);
    if s != [] {
      SameHead(le, s, t);
      SameTail(s, t);
      forall y | y in s[1..] ensures y in s {}
      SortedUnique(le, s[1..], t[1..]);
      assert s == [s[0]] + s[1..] && t == [t[0]] + t[1..];
    }
  }

  lemma SameHead<T(!new)>(le: (T, T) -> bool, s: seq<T>, t: seq<T>)
    requires OrderOn(le, s) && Sorted(le, s) && Sorted(le, t) && s != [] && t != []
    requires forall x :: x in s <==> x in t
    ensures s[0] == t[0]
  {
    assert s[0] in t && t[0] in s;
    var i :| 0 <= i < |t| && t[i] == s[0];
    var j :| 0 <= j < |s| && s[j] == t[0];
    assert le(t[0], t[i]) && le(s[0], s[j]);
  }

  lemma SameTail<T>(s: seq<T>, t: seq<T>)
    requires s != [] && t != [] && s[0] == t[0] && multiset(s) == multiset(t)
    ensures multiset(s[1..]) == multiset(t[1..])
  {
    assert s == [s[0]] + s[1..] && t == [t[0]] + t[1..];
    assert multiset(s[1..]) == multiset(s) - multiset{s[0]};
    assert multiset(t[1..]) == multiset(t) - multiset{t[0]};
  }

  /** The sort does not see the order of its input. */
  lemma SortOrderFree<T(!new)>(le: (T, T) -> bool, s: seq<T>, t: seq<T>)
    requires OrderOn(le, s)
    requires multiset(s) == multiset(t)
    ensures Sort(le, s) == Sort(le, t)
    ensures Sorted(le, Sort(le, s))
  {
    SameElements(s, t);
    SortSorted(le, s);
    SortSorted(le, t);
    SameElements(s, Sort(le, s));
    SortedUnique(le, Sort(le, s), Sort(le, t));
  }
}

/** The order JavaScript's `<` gives strings: lexicographic by code unit. */
module Strings {

  function StrLe(a: string, b: string): bool {
    if a == "" then true
    else if b == "" then false
    else if a[0] != b[0] then a[0] < b[0]
    else StrLe(a[1..], b[1..])
  }

  lemma {:induction false} StrLeTotal(a: string, b: string)
    ensures StrLe(a, b) || StrLe(b, a)
    ensures StrLe(a, b) && StrLe(b, a) ==> a == b
  {
    if a != "" && b != "" && a[0] == b[0] {
      StrLeTotal(a[1..], b[1..]);
      assert a == [a[0]] + a[1..] && b == [b[0]] + b[1..];
    }
  }

  lemma {:induction false} StrLeTrans(a: string, b: string, c: string)
    requires StrLe(a, b) && StrLe(b, c)
    ensures StrLe(a, c)
  {
    if a != "" && a[0] == b[0] == c[0] {
      StrLeTrans(a[1..], b[1..], c[1..]);
    }
  }

  predicate StrLt(a: string, b: string) {
    StrLe(a, b) && a != b
  }

  /** After the first `k` units, which they share, one text has ended or they differ. */
  predicate Parts(a: string, b: string, k: nat) {
    && k <= |a| && k <= |b| && a[..k] == b[..k]
    && (if k < |a| && k < |b| then a[k] < b[k] else |a| < |b|)
  }

  /** Below means: a proper prefix, or the smaller code unit where they first differ. */
  lemma {:induction false} StrLtIff(a: string, b: string)
    ensures StrLt(a, b) <==> exists k :: Parts(a, b, k)
    decreases |a|
  {
    if a != "" && b != "" && a[0] == b[0] {
      StrLtIff(a[1..], b[1..]);
      assert a == [a[0]] + a[1..] && b == [b[0]] + b[1..];
      forall k: nat ensures Parts(a[1..], b[1..], k) <==> Parts(a, b, k + 1) {
        if k + 1 <= |a| && k + 1 <= |b| {
          assert a[..k + 1] == [a[0]] + a[1..][..k] && b[..k + 1] == [b[0]] + b[1..][..k];
          assert a[1..][..k] == a[..k + 1][1..] && b[1..][..k] == b[..k + 1][1..];
        }
      }
      if StrLt(a[1..], b[1..]) {
        var k: nat :| Parts(a[1..], b[1..], k);
        assert Parts(a, b, k + 1);
      }
      if k: nat :| Parts(a, b, k) {
        assert k > 0 && Parts(a[1..], b[1..], k - 1);
      }
    } else {
      if StrLt(a, b) { assert Parts(a, b, 0); }
      if k: nat :| Parts(a, b, k) {
        assert k > 0 ==> a[..k][0] == b[..k][0];
      }
    }
  }

  lemma StrOrders(a: string, b: string, c: string)
    ensures StrLt(a, b) || StrLt(b, a) || a == b
    ensures !(StrLt(a, b) && StrLt(b, a))
    ensures StrLe(a, a) && StrLe(c, c)
    ensures StrLe(a, b) && StrLe(b, c) ==> StrLe(a, c)
    ensures StrLt(a, b) && StrLe(b, c) ==> StrLt(a, c)
    ensures StrLe(a, b) && StrLt(b, c) ==> StrLt(a, c)
    ensures StrLe(b, c) || StrLe(c, b)
    ensures StrLe(a, c) || StrLe(c, a)
    ensures StrLe(b, c) && StrLe(c, b) ==> b == c
    ensures StrLe(a, c) && StrLe(c, a) ==> a == c
  {
    StrLeTotal(a, b);
    StrLeTotal(b, c);
    StrLeTotal(a, c);
    StrLeTotal(a, a);
    StrLeTotal(c, c);
    if StrLe(a, b) && StrLe(b, c) { StrLeTrans(a, b, c); }
  }
}
