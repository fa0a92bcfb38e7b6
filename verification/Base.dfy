/** Result types and sequence vocabulary shared by every module of the model. */
module Base {

  datatype Option<+T> = None | Some(value: T)

  function Last<T>(s: seq<T>): T
    requires s != []
  {
    s[|s| - 1]
  }

  /** A number in decimal. */
  function Digits(n: nat): string {
    if n < 10 then [('0' as int + n) as char] else Digits(n / 10) + [('0' as int + n % 10) as char]
  }

  function IntText(n: int): string {
    if n < 0 then "-" + Digits(-n) else Digits(n)
  }

  lemma {:induction false} DigitsFacts(n: nat)
    ensures Digits(n) != "" && (|Digits(n)| == 1 <==> n < 10)
    ensures forall i :: 0 <= i < |Digits(n)| ==> '0' <= Digits(n)[i] <= '9'
  {
    if n >= 10 { DigitsFacts(n / 10); }
  }

  lemma {:induction false} DigitsInjective(m: nat, n: nat)
    requires Digits(m) == Digits(n)
    ensures m == n
  {
    DigitsFacts(m);
    DigitsFacts(n);
    assert Last(Digits(m)) == Last(Digits(n));
    if m >= 10 {
      assert Digits(m)[..|Digits(m)| - 1] == Digits(m / 10) && Digits(n)[..|Digits(n)| - 1] == Digits(n / 10);
      DigitsInjective(m / 10, n / 10);
    }
  }

  /** One digit stands for itself; further digits are appended, the last one least significant. */
  lemma DigitsMean(m: nat, d: nat)
    requires m > 0 && d < 10
    ensures Digits(d) == "0123456789"[d..d + 1] && Digits(10 * m + d) == Digits(m) + Digits(d)
    ensures IntText(m) == Digits(m) && IntText(-(m as int)) == "-" + Digits(m) && IntText(0) == "0"
  {
    assert (10 * m + d) / 10 == m && (10 * m + d) % 10 == d;
  }

  /** Integers have distinct decimal texts. */
  lemma IntTextInjective(m: int, n: int)
    requires IntText(m) == IntText(n)
    ensures m == n
  {
    var d, e := Digits(if m < 0 then -m else m), Digits(if n < 0 then -n else n);
    DigitsFacts(if m < 0 then -m else m);
    DigitsFacts(if n < 0 then -n else n);
    assert ("-" + d)[0] == '-' && ("-" + e)[0] == '-';
    assert ("-" + d)[1..] == d && ("-" + e)[1..] == e;
    DigitsInjective(if m < 0 then -m else m, if n < 0 then -n else n);
  }

  /** Text normalisation: the key of de-duplication, caches and alignment. Nothing is assumed about it. */
  type Norm = string -> string

  function NormalizeAll(texts: seq<string>, norm: Norm): (r: seq<string>)
    ensures |r| == |texts| && forall i :: 0 <= i < |r| ==> r[i] == norm(texts[i])
  {
    seq(|texts|, i requires 0 <= i < |texts| => norm(texts[i]))
  }

  /** The number of items the first half of a split keeps. */
  function Half(n: nat): (m: nat)
    ensures n >= 2 ==> 1 <= m < n
  {
    (n + 1) / 2
  }

  function FirstHalf<T>(s: seq<T>): (r: seq<T>)
    requires |s| >= 2
    ensures 1 <= |r| < |s|
  {
    s[..Half(|s|)]
  }

  function SecondHalf<T>(s: seq<T>): (r: seq<T>)
    requires |s| >= 2
    ensures 1 <= |r| < |s|
  {
    s[Half(|s|)..]
  }

  /** The halves make up the whole; they are even, or the first one has one item more. */
  lemma HalvesAre<T>(s: seq<T>)
    requires |s| >= 2
    ensures FirstHalf(s) + SecondHalf(s) == s
    ensures |FirstHalf(s)| == |SecondHalf(s)| || |FirstHalf(s)| == |SecondHalf(s)| + 1
  {
  }

  function Flatten<T>(xss: seq<seq<T>>): seq<T> {
    if xss == [] then [] else xss[0] + Flatten(xss[1..])
  }

  lemma {:induction false} FlattenConcat<T>(xss: seq<seq<T>>, yss: seq<seq<T>>)
    ensures Flatten(xss + yss) == Flatten(xss) + Flatten(yss)
  {
    if xss == [] {
      assert xss + yss == yss;
    } else {
      assert (xss + yss)[1..] == xss[1..] + yss;
      FlattenConcat(xss[1..], yss);
    }
  }

  lemma FlattenSnoc<T>(xss: seq<seq<T>>, ys: seq<T>)
    ensures Flatten(xss + [ys]) == Flatten(xss) + ys
  {
    FlattenConcat(xss, [ys]);
    assert Flatten([ys]) == ys + Flatten([]);
  }

  /** Least integer not below a non-negative quotient: how many chunks of `size` cover `n` items. */
  function CeilDiv(n: nat, size: nat): (r: nat)
    requires size > 0
    ensures r * size >= n
    ensures n > 0 ==> (r - 1) * size < n
  {
    var r := (n + size - 1) / size;
    assert r * size + (n + size - 1) % size == n + size - 1;
    r
  }

  /** Slices of length `size`, in order, the last one possibly shorter. */
  function Chunks<T>(xs: seq<T>, size: nat): (r: seq<seq<T>>)
    requires size > 0
    decreases |xs|
  {
    if xs == [] then []
    else if |xs| <= size then [xs]
    else [xs[..size]] + Chunks(xs[size..], size)
  }

  lemma {:induction false} ChunksCover<T>(xs: seq<T>, size: nat)
    requires size > 0
    ensures Flatten(Chunks(xs, size)) == xs
    ensures forall c :: c in Chunks(xs, size) ==> 1 <= |c| <= size
    ensures |Chunks(xs, size)| == CeilDiv(|xs|, size)
    decreases |xs|
  {
    if |xs| > size {
      ChunksCover(xs[size..], size);
      assert xs == xs[..size] + xs[size..];
      var r := CeilDiv(|xs| - size, size);
      CeilDivUnique(|xs|, size, r + 1);
    } else if xs != [] {
      CeilDivUnique(|xs|, size, 1);
      assert Flatten([xs]) == xs + Flatten([]);
    }
  }

  lemma CeilDivUnique(n: nat, size: nat, r: nat)
    requires size > 0
    requires r * size >= n > (r - 1) * size
    ensures r == CeilDiv(n, size)
  {
    var q := CeilDiv(n, size);
    if q <= r - 1 { TimesMonotone(q, r - 1, size); }
    if r <= q - 1 { TimesMonotone(r, q - 1, size); }
  }

  lemma TimesMonotone(a: int, b: int, c: nat)
    requires a <= b
    ensures a * c <= b * c
  {
    assert (b - a) * c >= 0;
  }

  /** The next slice a slicing loop takes. */
  lemma ChunkStep<T>(xs: seq<T>, size: nat, i: nat)
    requires size > 0 && i < |xs|
    ensures var end := if i + size < |xs| then i + size else |xs|;
      Chunks(xs[i..], size) == [xs[i..end]] + Chunks(xs[end..], size)
  {
    var rest := xs[i..];
    if i + size < |xs| {
      assert rest[..size] == xs[i..i + size] && rest[size..] == xs[i + size..];
    } else {
      assert xs[i..|xs|] == rest && xs[|xs|..] == [];
    }
  }

  ghost predicate NoneEmpty<T>(xss: seq<seq<T>>) {
    forall i :: 0 <= i < |xss| ==> xss[i] != []
  }

  /** The slicing loop every batching caller runs. */
  method SliceBatches<T>(items: seq<T>, size: nat) returns (batches: seq<seq<T>>)
    requires size > 0
    ensures batches == Chunks(items, size)
    ensures Flatten(batches) == items && |batches| == CeilDiv(|items|, size)
    ensures NoneEmpty(batches) && forall c :: c in batches ==> 1 <= |c| <= size
  {
    batches := [];
    var i := 0;
    while i < |items|
      invariant 0 <= i <= |items|
      invariant batches + Chunks(items[i..], size) == Chunks(items, size)
    {
      ChunkStep(items, size, i);
      var end := if i + size < |items| then i + size else |items|;
      batches := batches + [items[i..end]];
      i := end;
    }
    ChunksCover(items, size);
  }

  // ---------------------------------------------------------------- positions

  ghost predicate Rising(pos: seq<nat>) {
    forall x, y :: 0 <= x < y < |pos| ==> pos[x] < pos[y]
  }

  /** One more position, behind all the others. */
  lemma RisingSnoc(pos: seq<nat>, n: nat)
    requires Rising(pos) && forall x :: 0 <= x < |pos| ==> pos[x] < n
    ensures Rising(pos + [n])
    ensures forall i :: i in pos + [n] <==> i in pos || i == n
    ensures n !in pos
  {
  }

  // ---------------------------------------------------------------- removing repetitions

  ghost predicate Distinct<T>(s: seq<T>) {
    forall i, j :: 0 <= i < j < |s| ==> s[i] != s[j]
  }

  /** Each element once, in first-seen order. */
  function Unique<T(==)>(xs: seq<T>): seq<T> {
    if xs == [] then []
    else
      var u := Unique(xs[..|xs| - 1]);
      if Last(xs) in u then u else u + [Last(xs)]
  }

  lemma {:induction false} UniqueFacts<T>(xs: seq<T>)
    ensures forall x :: x in Unique(xs) <==> x in xs
    ensures Distinct(Unique(xs))
  {
    if xs != [] {
      UniqueFacts(xs[..|xs| - 1]);
      assert xs == xs[..|xs| - 1] + [Last(xs)];
    }
  }

  lemma UniqueHas<T>(xs: seq<T>, x: T)
    ensures x in Unique(xs) <==> x in xs
  {
    UniqueFacts(xs);
  }

  /** Of two elements kept, the earlier one was seen before the later one appeared at all. */
  lemma {:induction false} UniqueFirstSeen<T>(xs: seq<T>, i: nat, j: nat) returns (at: nat)
    requires i < j < |Unique(xs)|
    ensures at < |xs| && xs[at] == Unique(xs)[i] && Unique(xs)[j] !in xs[..at + 1]
  {
    var front := xs[..|xs| - 1];
    var u := Unique(front);
    UniqueFacts(front);
    if j < |u| {
      at := UniqueFirstSeen(front, i, j);
      assert xs[..at + 1] == front[..at + 1];
    } else {
      assert Unique(xs) == u + [Last(xs)];
      UniqueHas(front, u[i]);
      at :| 0 <= at < |front| && front[at] == u[i];
      assert forall x :: x in xs[..at + 1] ==> x in front by { assert xs[..at + 1] == front[..at + 1]; }
    }
  }

  /** Removing repetitions early changes nothing. */
  lemma {:induction false} UniqueAbsorbs<T>(xs: seq<T>, ys: seq<T>)
    ensures Unique(Unique(xs) + ys) == Unique(xs + ys)
  {
    if ys == [] {
      assert Unique(xs) + ys == Unique(xs) && xs + ys == xs;
      UniqueFacts(xs);
      UniqueFixed(Unique(xs));
    } else {
      var before := ys[..|ys| - 1];
      assert (Unique(xs) + ys)[..|Unique(xs)| + |ys| - 1] == Unique(xs) + before;
      assert (xs + ys)[..|xs| + |ys| - 1] == xs + before;
      UniqueAbsorbs(xs, before);
    }
  }

  lemma {:induction false} UniqueFixed<T>(xs: seq<T>)
    requires Distinct(xs)
    ensures Unique(xs) == xs
  {
    if xs != [] {
      UniqueFixed(xs[..|xs| - 1]);
    }
  }

  lemma {:induction false} UniqueGrows<T>(xs: seq<T>, ys: seq<T>)
    ensures Unique(xs) <= Unique(xs + ys)
  {
    if ys == [] {
      assert xs + ys == xs;
    } else {
      assert (xs + ys)[..|xs| + |ys| - 1] == xs + ys[..|ys| - 1];
      UniqueGrows(xs, ys[..|ys| - 1]);
    }
  }
}
