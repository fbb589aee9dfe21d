/** The average that ignores outliers: every number is compared with every other,
    and the lowest average over the largest groups of similar numbers is taken. */
module TrimmedMeans {

  // ----- what is computed ---------------------------------------------------------------

  /** Two different numbers no further apart than a share of the smaller one. */
  predicate Similar(x: real, y: real, percent: real)
  {
    if x < y then x != 0.0 && (y - x) / x <= percent
    else x != y && y != 0.0 && (x - y) / y <= percent
  }

  function Group(x: real, a: seq<real>, percent: real): seq<real>
  {
    if a == [] then [] else (if Similar(x, a[0], percent) then [a[0]] else []) + Group(x, a[1..], percent)
  }

  /** A number with those similar to it. */
  function Cluster(x: real, a: seq<real>, percent: real): seq<real>
  {
    [x] + Group(x, a, percent)
  }

  function Total(a: seq<real>): real
  {
    if a == [] then 0.0 else a[0] + Total(a[1..])
  }

  function Mean(cluster: seq<real>): real
    requires cluster != []
  {
    Total(cluster) / |cluster| as real
  }

  function Size(x: real, a: seq<real>, percent: real): nat
  {
    |Cluster(x, a, percent)|
  }

  predicate Largest(x: real, a: seq<real>, percent: real)
  {
    x in a && forall y :: y in a ==> Size(y, a, percent) <= Size(x, a, percent)
  }

  /** The least average among the largest groups; zero for no numbers. */
  ghost predicate IsTrimmedMean(a: seq<real>, percent: real, r: real)
  {
    if a == [] then r == 0.0
    else
      (exists x :: Largest(x, a, percent) && r == Mean(Cluster(x, a, percent))) &&
      (forall x :: Largest(x, a, percent) ==> r <= Mean(Cluster(x, a, percent)))
  }

  // ----- the order of the input does not matter ------------------------------------------------

  lemma TakeOut(b: seq<real>, i: nat)
    requires i < |b|
    ensures multiset(b[..i] + b[i + 1..]) == multiset(b) - multiset{b[i]}
  {
    assert b == b[..i] + [b[i]] + b[i + 1..];
  }

  lemma {:induction false} GroupWithout(x: real, b: seq<real>, i: nat, percent: real)
    requires i < |b|
    ensures var (all, rest) := (Group(x, b, percent), Group(x, b[..i] + b[i + 1..], percent));
            if Similar(x, b[i], percent) then |all| == |rest| + 1 && Total(all) == Total(rest) + b[i]
            else |all| == |rest| && Total(all) == Total(rest)
    decreases i
  {
    var rest := b[..i] + b[i + 1..];
    var head := if Similar(x, b[0], percent) then [b[0]] else [];
    TotalOfHead(head, Group(x, b[1..], percent));
    if i == 0 {
      assert rest == b[1..];
      assert head != [] ==> head[1..] == [];
    } else {
      GroupWithout(x, b[1..], i - 1, percent);
      assert rest[1..] == b[1..][..i - 1] + b[1..][i..] && rest[0] == b[0];
      TotalOfHead(head, Group(x, rest[1..], percent));
    }
  }

  lemma TotalOfHead(head: seq<real>, tail: seq<real>)
    requires |head| <= 1
    ensures Total(head + tail) == Total(head) + Total(tail)
  {
    if head == [] {
      assert head + tail == tail;
    } else {
      assert (head + tail)[1..] == tail && head[1..] == [];
    }
  }

  lemma {:induction false} Permuted(x: real, a: seq<real>, b: seq<real>, percent: real)
    requires multiset(a) == multiset(b)
    ensures |Group(x, a, percent)| == |Group(x, b, percent)|
    ensures Total(Group(x, a, percent)) == Total(Group(x, b, percent))
    decreases |a|
  {
    if a == [] {
      assert |multiset(b)| == 0;
    } else {
      var i := RestPermuted(a, b);
      GroupWithout(x, a, 0, percent);
      assert a[..0] + a[1..] == a[1..];
      GroupWithout(x, b, i, percent);
      Permuted(x, a[1..], b[..i] + b[i + 1..], percent);
    }
  }

  lemma RestPermuted(a: seq<real>, b: seq<real>) returns (i: nat)
    requires multiset(a) == multiset(b) && a != []
    ensures i < |b| && b[i] == a[0] && multiset(a[1..]) == multiset(b[..i] + b[i + 1..])
  {
    assert a[0] in multiset(b);
    i :| 0 <= i < |b| && b[i] == a[0];
    TakeOut(b, i);
    TakeOut(a, 0);
    assert a[..0] + a[1..] == a[1..];
  }

  lemma SameGroups(a: seq<real>, b: seq<real>, percent: real, x: real)
    requires multiset(a) == multiset(b)
    ensures Size(x, a, percent) == Size(x, b, percent)
    ensures Mean(Cluster(x, a, percent)) == Mean(Cluster(x, b, percent))
  {
    Permuted(x, a, b, percent);
    TotalOfHead([x], Group(x, a, percent));
    TotalOfHead([x], Group(x, b, percent));
  }

  lemma SameLargest(a: seq<real>, b: seq<real>, percent: real, x: real)
    requires multiset(a) == multiset(b) && Largest(x, a, percent)
    ensures Largest(x, b, percent)
  {
    assert x in multiset(a);
    SameGroups(a, b, percent, x);
    forall y | y in b ensures Size(y, b, percent) <= Size(x, b, percent) {
      assert y in multiset(b);
      assert y in a;
      SameGroups(a, b, percent, y);
    }
  }

  /** The average does not depend on the order in which the numbers are given. */
  lemma OrderDoesNotMatter(a: seq<real>, b: seq<real>, percent: real, r: real, r': real)
    requires multiset(a) == multiset(b) && IsTrimmedMean(a, percent, r) && IsTrimmedMean(b, percent, r')
    ensures r == r'
  {
    if a != [] {
      assert a[0] in multiset(b);
      var x :| Largest(x, a, percent) && r == Mean(Cluster(x, a, percent));
      var y :| Largest(y, b, percent) && r' == Mean(Cluster(y, b, percent));
      SameGroups(a, b, percent, x);
      SameGroups(a, b, percent, y);
      SameLargest(a, b, percent, x);
      SameLargest(b, a, percent, y);
    } else {
      assert |multiset(b)| == 0;
    }
  }

  // ----- how far off it can be ---------------------------------------------------------------

  predicate AllBetween(a: seq<real>, lo: real, hi: real)
  {
    forall i :: 0 <= i < |a| ==> lo <= a[i] <= hi
  }

  lemma OneMoreTerm(n: real, s: real, y: real, b: real)
    ensures s <= n * b && y <= b ==> y + s <= (n + 1.0) * b
    ensures n * b <= s && b <= y ==> (n + 1.0) * b <= y + s
  {
    assert (n + 1.0) * b == n * b + b;
  }

  lemma {:induction false} TotalBetween(a: seq<real>, lo: real, hi: real)
    requires AllBetween(a, lo, hi)
    ensures |a| as real * lo <= Total(a) <= |a| as real * hi
    decreases |a|
  {
    if a != [] {
      TotalBetween(a[1..], lo, hi);
      OneMoreTerm(|a[1..]| as real, Total(a[1..]), a[0], lo);
      OneMoreTerm(|a[1..]| as real, Total(a[1..]), a[0], hi);
    }
  }

  lemma MeanBetween(a: seq<real>, lo: real, hi: real)
    requires a != [] && AllBetween(a, lo, hi)
    ensures lo <= Mean(a) <= hi
  {
    TotalBetween(a, lo, hi);
    Quotient(Total(a), |a| as real);
    Between(Mean(a), |a| as real, lo, hi);
  }

  lemma Quotient(a: real, b: real)
    requires b != 0.0
    ensures a / b * b == a
  {
  }

  lemma Between(q: real, n: real, lo: real, hi: real)
    requires n > 0.0 && n * lo <= q * n <= n * hi
    ensures lo <= q <= hi
  {
    assert q < lo ==> (lo - q) * n > 0.0;
    assert q > hi ==> (q - hi) * n > 0.0;
  }

  lemma Positive(a: real, b: real)
    requires a >= 0.0 && b >= 0.0
    ensures a * b >= 0.0
  {
  }

  /** Within a factor 1 + percent of each other. */
  predicate Near(x: real, y: real, percent: real)
  {
    y <= x + percent * x && x <= y + percent * y
  }

  lemma Factor(lo: real, hi: real, q: real, percent: real)
    requires 0.0 < lo <= hi && q * lo == hi - lo && q <= percent && percent >= 0.0
    ensures Near(lo, hi, percent) && Near(hi, lo, percent)
  {
    Positive(percent - q, lo);
    assert (percent - q) * lo == percent * lo - q * lo;
    Positive(percent, hi);
    Positive(percent, lo);
  }

  lemma SimilarIsNear(x: real, y: real, percent: real)
    requires x > 0.0 && y > 0.0 && percent >= 0.0 && Similar(x, y, percent)
    ensures Near(x, y, percent)
  {
    if x < y {
      Quotient(y - x, x);
      Factor(x, y, (y - x) / x, percent);
    } else {
      Quotient(x - y, y);
      Factor(y, x, (x - y) / y, percent);
    }
  }

  lemma ShareAtMost(q: real, x: real, percent: real)
    requires x > 0.0 && q * x <= percent * x
    ensures q <= percent
  {
    assert q > percent ==> (q - percent) * x > 0.0;
  }

  /** Two different positive numbers are similar exactly when neither is more than a
      factor 1 + percent of the other. */
  lemma SimilarIff(x: real, y: real, percent: real)
    requires x > 0.0 && y > 0.0 && percent >= 0.0
    ensures Similar(x, y, percent) <==> x != y && Near(x, y, percent)
  {
    if Similar(x, y, percent) { SimilarIsNear(x, y, percent); }
    if x != y && Near(x, y, percent) {
      if x < y {
        Quotient(y - x, x);
        ShareAtMost((y - x) / x, x, percent);
      } else {
        Quotient(x - y, y);
        ShareAtMost((x - y) / y, y, percent);
      }
    }
  }

  /** How many of the numbers are near x, others than x itself. */
  function Support(x: real, a: seq<real>, percent: real): nat
  {
    if a == [] then 0 else (if a[0] != x && Near(x, a[0], percent) then 1 else 0) + Support(x, a[1..], percent)
  }

  predicate BestSupported(x: real, a: seq<real>, percent: real)
  {
    x in a && forall y :: y in a ==> Support(y, a, percent) <= Support(x, a, percent)
  }

  lemma {:induction false} GroupIsSupport(x: real, a: seq<real>, percent: real)
    requires x > 0.0 && percent >= 0.0 && forall i :: 0 <= i < |a| ==> a[i] > 0.0
    ensures |Group(x, a, percent)| == Support(x, a, percent)
    decreases |a|
  {
    if a != [] {
      GroupIsSupport(x, a[1..], percent);
      SimilarIff(x, a[0], percent);
    }
  }

  lemma LargestIsBest(x: real, a: seq<real>, percent: real)
    requires percent >= 0.0 && forall i :: 0 <= i < |a| ==> a[i] > 0.0
    ensures Largest(x, a, percent) <==> BestSupported(x, a, percent)
  {
    forall y | y in a ensures Size(y, a, percent) == 1 + Support(y, a, percent) {
      GroupIsSupport(y, a, percent);
    }
  }

  /** With lo the number that grows to x, near x is between lo and what x grows to. */
  lemma NearIsBetween(x: real, y: real, percent: real, lo: real)
    requires percent >= 0.0 && lo + percent * lo == x
    ensures Near(x, y, percent) <==> lo <= y <= x + percent * x
  {
    assert y < lo ==> (lo - y) + percent * (lo - y) > 0.0 by {
      if y < lo { Positive(percent, lo - y); }
    }
    assert y >= lo ==> (y - lo) + percent * (y - lo) >= 0.0 by {
      if y >= lo { Positive(percent, y - lo); }
    }
    assert percent * (lo - y) == percent * lo - percent * y;
  }

  lemma {:induction false} GroupIsBetween(x: real, a: seq<real>, percent: real, lo: real)
    requires x > 0.0 && percent >= 0.0 && lo + percent * lo == x && forall i :: 0 <= i < |a| ==> a[i] > 0.0
    ensures AllBetween(Group(x, a, percent), lo, x + percent * x)
    decreases |a|
  {
    if a != [] {
      GroupIsBetween(x, a[1..], percent, lo);
      if Similar(x, a[0], percent) {
        SimilarIsNear(x, a[0], percent);
        NearIsBetween(x, a[0], percent, lo);
      }
    }
  }

  lemma MeanIsNear(x: real, a: seq<real>, percent: real, lo: real)
    requires x > 0.0 && percent >= 0.0 && lo + percent * lo == x && forall i :: 0 <= i < |a| ==> a[i] > 0.0
    ensures Near(x, Mean(Cluster(x, a, percent)), percent)
  {
    GroupIsBetween(x, a, percent, lo);
    Positive(percent, x);
    NearIsBetween(x, x, percent, lo);
    MeanBetween(Cluster(x, a, percent), lo, x + percent * x);
    NearIsBetween(x, Mean(Cluster(x, a, percent)), percent, lo);
  }

  lemma Shrunk(x: real, percent: real) returns (lo: real)
    requires percent >= 0.0
    ensures lo + percent * lo == x
  {
    lo := x / (1.0 + percent);
    Quotient(x, 1.0 + percent);
  }

  /** The result is near one of the numbers that most of the others are near, and not
      far above any of those: what few are near has no part in it. */
  lemma NearTheBestSupported(a: seq<real>, percent: real, r: real)
    requires a != [] && percent >= 0.0 && (forall i :: 0 <= i < |a| ==> a[i] > 0.0) && IsTrimmedMean(a, percent, r)
    ensures exists x :: BestSupported(x, a, percent) && Near(x, r, percent)
    ensures forall x :: BestSupported(x, a, percent) ==> r <= x + percent * x
  {
    var x :| Largest(x, a, percent) && r == Mean(Cluster(x, a, percent));
    LargestIsBest(x, a, percent);
    var lo := Shrunk(x, percent);
    MeanIsNear(x, a, percent, lo);
    forall y | BestSupported(y, a, percent) ensures r <= y + percent * y {
      LargestIsBest(y, a, percent);
      var lo := Shrunk(y, percent);
      MeanIsNear(y, a, percent, lo);
    }
  }

  // ----- sorting by exchanging neighbours -----------------------------------------------------

  /** The elements after the first that belong before it, in descending order. */
  function Above(x: real, s: seq<real>): nat
  {
    if s == [] then 0 else (if x < s[0] then 1 else 0) + Above(x, s[1..])
  }

  /** The pairs that are out of descending order. */
  function Inversions(s: seq<real>): nat
  {
    if s == [] then 0 else Above(s[0], s[1..]) + Inversions(s[1..])
  }

  function Swapped(s: seq<real>, i: nat): seq<real>
    requires i + 1 < |s|
  {
    s[i := s[i + 1]][i + 1 := s[i]]
  }

  lemma {:induction false} AboveSwapped(x: real, s: seq<real>, i: nat)
    requires i + 1 < |s|
    ensures Above(x, Swapped(s, i)) == Above(x, s)
    decreases i
  {
    if i == 0 {
      assert Swapped(s, 0)[1..][1..] == s[1..][1..];
    } else {
      AboveSwapped(x, s[1..], i - 1);
      assert Swapped(s, i)[1..] == Swapped(s[1..], i - 1);
    }
  }

  /** Exchanging two neighbours that are out of order puts one more pair in order. */
  lemma {:induction false} SwapRemovesOne(s: seq<real>, i: nat)
    requires i + 1 < |s| && s[i] < s[i + 1]
    ensures Inversions(Swapped(s, i)) == Inversions(s) - 1
    decreases i
  {
    var t := Swapped(s, i);
    if i == 0 {
      assert t[1..][1..] == s[1..][1..];
    } else {
      SwapRemovesOne(s[1..], i - 1);
      AboveSwapped(s[0], s[1..], i - 1);
      assert t[1..] == Swapped(s[1..], i - 1);
    }
  }

  ghost function Keys<T>(s: seq<T>, key: T -> real): (r: seq<real>)
    ensures |r| == |s| && forall i :: 0 <= i < |s| ==> r[i] == key(s[i])
  {
    seq(|s|, i requires 0 <= i < |s| => key(s[i]))
  }

  /** Exchanges neighbours, pass after pass, until a pass exchanges none. */
  method BubbleSort<T>(a: array<T>, key: T -> real)
    modifies a
    ensures multiset(a[..]) == multiset(old(a[..]))
    ensures forall i :: 0 <= i < a.Length - 1 ==> key(a[i]) >= key(a[i + 1])
  {
    var sorting := true;
    while sorting
      invariant multiset(a[..]) == multiset(old(a[..]))
      invariant !sorting ==> forall k :: 0 <= k < a.Length - 1 ==> key(a[k]) >= key(a[k + 1])
      decreases Inversions(Keys(a[..], key)), if sorting then 1 else 0
    {
      sorting := Pass(a, key);
    }
  }

  function SwappedRows<T>(s: seq<T>, i: nat): seq<T>
    requires i + 1 < |s|
  {
    s[i := s[i + 1]][i + 1 := s[i]]
  }

  lemma SwappingRows<T>(s: seq<T>, key: T -> real, i: nat)
    requires i + 1 < |s| && key(s[i]) < key(s[i + 1])
    ensures var t := SwappedRows(s, i);
            multiset(t) == multiset(s) && Inversions(Keys(t, key)) == Inversions(Keys(s, key)) - 1
  {
    assert Keys(SwappedRows(s, i), key) == Swapped(Keys(s, key), i);
    SwapRemovesOne(Keys(s, key), i);
  }

  method Exchange<T>(a: array<T>, key: T -> real, i: nat)
    requires i + 1 < a.Length && key(a[i]) < key(a[i + 1])
    modifies a
    ensures multiset(a[..]) == multiset(old(a[..]))
    ensures Inversions(Keys(a[..], key)) < Inversions(Keys(old(a[..]), key))
  {
    SwappingRows(a[..], key, i);
    ghost var before := a[..];
    a[i], a[i + 1] := a[i + 1], a[i];
    assert a[..] == SwappedRows(before, i);
  }

  method Pass<T>(a: array<T>, key: T -> real) returns (sorting: bool)
    modifies a
    ensures multiset(a[..]) == multiset(old(a[..]))
    ensures sorting ==> Inversions(Keys(a[..], key)) < Inversions(Keys(old(a[..]), key))
    ensures !sorting ==> a[..] == old(a[..])
    ensures !sorting ==> forall k :: 0 <= k < a.Length - 1 ==> key(a[k]) >= key(a[k + 1])
  {
    sorting := false;
    var i := 0;
    while i < a.Length
      invariant 0 <= i <= a.Length && multiset(a[..]) == multiset(old(a[..]))
      invariant sorting ==> Inversions(Keys(a[..], key)) < Inversions(Keys(old(a[..]), key))
      invariant !sorting ==> a[..] == old(a[..])
      invariant !sorting ==> forall k :: 0 <= k < i && k < a.Length - 1 ==> key(a[k]) >= key(a[k + 1])
    {
      if i == a.Length - 1 { break; }
      if key(a[i]) < key(a[i + 1]) {
        sorting := true;
        Exchange(a, key, i);
      }
      i := i + 1;
    }
  }

  // ----- the program ------------------------------------------------------------------------

  method FindCluster(a: seq<real>, i: nat, percent: real) returns (related: seq<real>)
    requires i < |a|
    ensures related == Cluster(a[i], a, percent)
  {
    related := [a[i]];
    for j := 0 to |a|
      invariant related + Group(a[i], a[j..], percent) == Cluster(a[i], a, percent)
    {
      GroupNext(a[i], a[j..], percent, related);
      assert a[j..][1..] == a[j + 1..];
      if i == j { continue; }
      if a[i] < a[j] {
        var dif := a[j] - a[i];
        if dif != 0.0 && a[i] != 0.0 {
          if dif / a[i] <= percent { related := related + [a[j]]; }
        }
      } else {
        var dif := a[i] - a[j];
        if dif != 0.0 && a[j] != 0.0 {
          if dif / a[j] <= percent { related := related + [a[j]]; }
        }
      }
    }
  }

  lemma GroupNext(x: real, a: seq<real>, percent: real, before: seq<real>)
    requires a != []
    ensures before + Group(x, a, percent)
            == (if Similar(x, a[0], percent) then before + [a[0]] else before) + Group(x, a[1..], percent)
  {
    var rest := Group(x, a[1..], percent);
    if Similar(x, a[0], percent) {
      Joining(before, [a[0]], rest);
    } else {
      assert [] + rest == rest;
    }
  }

  lemma Joining(a: seq<real>, b: seq<real>, c: seq<real>)
    ensures a + (b + c) == (a + b) + c
  {
  }

  method Average(cluster: seq<real>) returns (avg: real)
    requires cluster != []
    ensures avg == Mean(cluster)
  {
    var total := 0.0;
    for j := 0 to |cluster|
      invariant total + Total(cluster[j..]) == Total(cluster)
    {
      assert cluster[j..][1..] == cluster[j + 1..];
      total := total + cluster[j];
    }
    avg := total / |cluster| as real;
  }

  method FindClusters(a: seq<real>, percent: real) returns (related: array<seq<real>>)
    ensures fresh(related) && related.Length == |a|
    ensures forall i :: 0 <= i < |a| ==> related[i] == Cluster(a[i], a, percent)
  {
    related := new seq<real>[|a|];
    for i := 0 to |a|
      invariant forall k :: 0 <= k < i ==> related[k] == Cluster(a[k], a, percent)
    {
      var row := FindCluster(a, i, percent);
      related[i] := row;
    }
  }

  lemma {:induction false} FirstIsGreatest(keys: seq<real>, k: nat)
    requires k < |keys| && forall i :: 0 <= i < |keys| - 1 ==> keys[i] >= keys[i + 1]
    ensures keys[0] >= keys[k]
  {
    if k > 0 { FirstIsGreatest(keys, k - 1); }
  }

  /** The rows as long as the first one, after sorting by length. */
  method Highest(related: array<seq<real>>) returns (highest: seq<seq<real>>)
    modifies related
    ensures forall row :: row in highest <==>
              row in old(related[..]) && forall other :: other in old(related[..]) ==> |other| <= |row|
  {
    var size := (row: seq<real>) => |row| as real;
    ghost var rows := related[..];
    BubbleSort(related, size);
    ghost var sorted := related[..];
    forall row ensures row in rows <==> row in sorted {
      assert row in multiset(rows) <==> row in multiset(sorted);
    }
    forall k | 0 <= k < |sorted| ensures |sorted[k]| <= |sorted[0]| {
      FirstIsGreatest(Keys(sorted, size), k);
    }
    highest := [];
    for i := 0 to related.Length
      invariant related[..] == sorted
      invariant forall row :: row in highest <==> row in sorted[..i] && |row| == |sorted[0]|
    {
      assert sorted[..i + 1] == sorted[..i] + [sorted[i]];
      if |related[i]| == |related[0]| { highest := highest + [related[i]]; }
    }
    assert sorted[..|sorted|] == sorted;
    assert sorted != [] ==> sorted[0] in sorted;
  }

  /** The least of the averages, after sorting them. */
  method LeastAverage(highest: seq<seq<real>>) returns (r: real)
    requires highest != [] && forall k :: 0 <= k < |highest| ==> highest[k] != []
    ensures exists row :: row in highest && row != [] && r == Mean(row)
    ensures forall row :: row in highest ==> row != [] && r <= Mean(row)
  {
    var avgs := new real[|highest|];
    for i := 0 to |highest|
      invariant forall k :: 0 <= k < i ==> avgs[k] == Mean(highest[k])
    {
      avgs[i] := Average(highest[i]);
    }
    ghost var found := avgs[..];
    BubbleSort(avgs, (x: real) => -x);
    r := avgs[0];
    FirstIsLeast(highest, found, avgs[..]);
  }

  lemma FirstIsLeast(highest: seq<seq<real>>, found: seq<real>, sorted: seq<real>)
    requires highest != [] && |found| == |highest| && multiset(found) == multiset(sorted)
    requires forall k :: 0 <= k < |found| ==> highest[k] != [] && found[k] == Mean(highest[k])
    requires forall i :: 0 <= i < |sorted| - 1 ==> -sorted[i] >= -sorted[i + 1]
    ensures sorted != []
    ensures exists row :: row in highest && row != [] && sorted[0] == Mean(row)
    ensures forall row :: row in highest ==> row != [] && sorted[0] <= Mean(row)
  {
    assert |multiset(found)| == |multiset(sorted)|;
    assert sorted[0] in multiset(found);
    var i :| 0 <= i < |found| && found[i] == sorted[0];
    assert highest[i] in highest;
    forall row | row in highest ensures row != [] && sorted[0] <= Mean(row) {
      var j :| 0 <= j < |highest| && highest[j] == row;
      assert found[j] in multiset(sorted);
      var k :| 0 <= k < |sorted| && sorted[k] == found[j];
      FirstIsGreatest(Keys(sorted, (x: real) => -x), k);
    }
  }

  method TrimmedMean(a: seq<real>, percent: real) returns (r: real)
    ensures IsTrimmedMean(a, percent, r)
  {
    var related := FindClusters(a, percent);
    ghost var rows := related[..];
    var highest := Highest(related);
    LargestRows(a, percent, rows);
    if highest == [] {
      SomeRowIsLongest(rows);
      return 0.0;
    }
    forall k | 0 <= k < |highest| ensures highest[k] != [] {
      assert highest[k] in highest && LongestRow(highest[k], rows);
    }
    r := LeastAverage(highest);
  }

  predicate RowsOf(a: seq<real>, percent: real, rows: seq<seq<real>>)
  {
    |rows| == |a| && forall i :: 0 <= i < |a| ==> rows[i] == Cluster(a[i], a, percent)
  }

  predicate LongestRow(row: seq<real>, rows: seq<seq<real>>)
  {
    row in rows && forall other :: other in rows ==> |other| <= |row|
  }

  /** The longest rows are the clusters of the largest groups. */
  lemma LargestRows(a: seq<real>, percent: real, rows: seq<seq<real>>)
    requires RowsOf(a, percent, rows)
    ensures forall row :: LongestRow(row, rows) ==>
              exists x :: Largest(x, a, percent) && row == Cluster(x, a, percent)
    ensures forall x :: Largest(x, a, percent) ==> LongestRow(Cluster(x, a, percent), rows)
  {
    forall row | LongestRow(row, rows) ensures exists x :: Largest(x, a, percent) && row == Cluster(x, a, percent) {
      var i :| 0 <= i < |rows| && rows[i] == row;
      forall y | y in a ensures Size(y, a, percent) <= Size(a[i], a, percent) {
        var j :| 0 <= j < |a| && a[j] == y;
        assert rows[j] in rows;
      }
      assert Largest(a[i], a, percent);
    }
    forall x | Largest(x, a, percent) ensures LongestRow(Cluster(x, a, percent), rows) {
      var i :| 0 <= i < |a| && a[i] == x;
      assert rows[i] in rows;
      forall other | other in rows ensures |other| <= Size(x, a, percent) {
        var j :| 0 <= j < |rows| && rows[j] == other;
        assert a[j] in a;
      }
    }
  }

  lemma {:induction false} SomeRowIsLongest(rows: seq<seq<real>>)
    ensures rows != [] ==> exists row :: LongestRow(row, rows)
    decreases |rows|
  {
    if rows != [] {
      SomeRowIsLongest(rows[1..]);
      assert rows == [rows[0]] + rows[1..];
      if rows[1..] == [] {
        assert LongestRow(rows[0], rows);
      } else {
        var row :| LongestRow(row, rows[1..]);
        assert LongestRow(if |row| < |rows[0]| then rows[0] else row, rows);
      }
    }
  }
}
