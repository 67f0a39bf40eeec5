/** Group-by over in-memory record sequences: the observable semantics of a
    pandas `groupby(key)[col].sum()` / `.count()` / `.mean()`.

    A group is the subsequence of records sharing a key (`Members`); the keys
    of a table are listed once each, in order of first appearance
    (`GroupKeys`); a column sum is `Total`. The central fact is `Partition`:
    the per-group sums of a column add up to the column's total. */
module GroupBy {

  /** Sum of `val` over `xs`, accumulated left to right. */
  function Total<T>(xs: seq<T>, val: T -> real): real
  {
    if |xs| == 0 then 0.0 else Total(xs[..|xs| - 1], val) + val(xs[|xs| - 1])
  }

  /** The records of `xs` whose key is `k`, in their original order. */
  function Members<T(!new), K(==,!new)>(xs: seq<T>, key: T -> K, k: K): (r: seq<T>)
    ensures |r| <= |xs|
    ensures forall x :: x in r <==> x in xs && key(x) == k
    ensures forall j :: 0 <= j < |r| ==> key(r[j]) == k
    ensures r == [] <==> forall x :: x in xs ==> key(x) != k
  {
    if |xs| == 0 then []
    else
      var rest := Members(xs[..|xs| - 1], key, k);
      assert xs == xs[..|xs| - 1] + [xs[|xs| - 1]];
      if key(xs[|xs| - 1]) == k then rest + [xs[|xs| - 1]] else rest
  }

  predicate NoDuplicates<K(==,!new)>(ks: seq<K>)
  {
    forall i, j :: 0 <= i < j < |ks| ==> ks[i] != ks[j]
  }

  /** Every key that occurs in `xs`, once, in order of first appearance:
      the index of a grouped table. */
  function GroupKeys<T(!new), K(==,!new)>(xs: seq<T>, key: T -> K): (ks: seq<K>)
    ensures NoDuplicates(ks)
    ensures |ks| <= |xs|
    ensures forall k :: k in ks <==> Members(xs, key, k) != []
  {
    if |xs| == 0 then []
    else
      var rest := GroupKeys(xs[..|xs| - 1], key);
      var k := key(xs[|xs| - 1]);
      assert forall k' :: Members(xs, key, k') != [] <==>
          Members(xs[..|xs| - 1], key, k') != [] || k' == k by {
        forall k' ensures Members(xs, key, k') != [] <==>
            Members(xs[..|xs| - 1], key, k') != [] || k' == k {
          if k' == k {
            assert xs[|xs| - 1] in Members(xs, key, k');
          }
        }
      }
      if k in rest then rest else rest + [k]
  }

  /** Sum of `val` over the group of `k`. */
  function GroupTotal<T(!new), K(==,!new)>(xs: seq<T>, key: T -> K, val: T -> real, k: K): real
  {
    Total(Members(xs, key, k), val)
  }

  /** A key no record carries totals zero; a key every record carries totals
      the whole column. */
  lemma {:induction false} GroupTotalCases<T(!new), K(!new)>(xs: seq<T>, key: T -> K, val: T -> real, k: K)
    ensures (forall x :: x in xs ==> key(x) != k) ==> GroupTotal(xs, key, val, k) == 0.0
    ensures (forall x :: x in xs ==> key(x) == k) ==> GroupTotal(xs, key, val, k) == Total(xs, val)
  {
    if forall x :: x in xs ==> key(x) == k {
      MembersAll(xs, key, k);
    }
  }

  /** Sum of the group totals of the keys `ks`: the column sum of a grouped table. */
  function SumGroups<T(!new), K(==,!new)>(xs: seq<T>, key: T -> K, val: T -> real, ks: seq<K>): real
  {
    if |ks| == 0 then 0.0
    else SumGroups(xs, key, val, ks[..|ks| - 1]) + GroupTotal(xs, key, val, ks[|ks| - 1])
  }

  lemma {:induction false} TotalAppend<T>(a: seq<T>, b: seq<T>, val: T -> real)
    ensures Total(a + b, val) == Total(a, val) + Total(b, val)
    decreases |b|
  {
    if |b| == 0 {
      assert a + b == a;
    } else {
      assert (a + b)[..|a + b| - 1] == a + b[..|b| - 1];
      TotalAppend(a, b[..|b| - 1], val);
    }
  }

  lemma {:induction false} MembersAppend<T(!new), K(!new)>(a: seq<T>, b: seq<T>, key: T -> K, k: K)
    ensures Members(a + b, key, k) == Members(a, key, k) + Members(b, key, k)
    decreases |b|
  {
    if |b| == 0 {
      assert a + b == a;
    } else {
      assert (a + b)[..|a + b| - 1] == a + b[..|b| - 1];
      MembersAppend(a, b[..|b| - 1], key, k);
    }
  }

  /** When every record carries the key, the group is the whole table. */
  lemma {:induction false} MembersAll<T(!new), K(!new)>(xs: seq<T>, key: T -> K, k: K)
    requires forall x :: x in xs ==> key(x) == k
    ensures Members(xs, key, k) == xs
    decreases |xs|
  {
    if |xs| > 0 {
      var init := xs[..|xs| - 1];
      var last := xs[|xs| - 1];
      assert xs == init + [last];
      assert key(last) == k by { assert last in xs; }
      assert forall x :: x in init ==> x in xs;
      MembersAll(init, key, k);
      assert Members(xs, key, k) == Members(init, key, k) + [last];
    }
  }

  /** Appending one record adds its value to the sum of exactly the one group
      (if listed) that it belongs to. */
  lemma {:induction false} SumGroupsSnoc<T(!new), K(!new)>(xs: seq<T>, x: T, key: T -> K, val: T -> real, ks: seq<K>)
    requires NoDuplicates(ks)
    ensures SumGroups(xs + [x], key, val, ks)
         == SumGroups(xs, key, val, ks) + (if key(x) in ks then val(x) else 0.0)
    decreases |ks|
  {
    if |ks| > 0 {
      var init := ks[..|ks| - 1];
      var k := ks[|ks| - 1];
      assert NoDuplicates(init);
      SumGroupsSnoc(xs, x, key, val, init);
      assert (xs + [x])[..|xs + [x]| - 1] == xs;
      assert key(x) in ks <==> key(x) in init || key(x) == k;
      assert key(x) == k ==> key(x) !in init;
    }
  }

  /** The groups of a table partition it: summing a column group by group
      gives the same total as summing it directly. */
  lemma Partition<T(!new), K(!new)>(xs: seq<T>, key: T -> K, val: T -> real)
    ensures SumGroups(xs, key, val, GroupKeys(xs, key)) == Total(xs, val)
  {
    var ks := GroupKeys(xs, key);
    forall x | x in xs ensures key(x) in ks {
      assert x in Members(xs, key, key(x));
    }
    PartitionBy(xs, key, val, ks);
  }

  /** Any list of distinct keys covering every record partitions the table. */
  lemma {:induction false} PartitionBy<T(!new), K(!new)>(xs: seq<T>, key: T -> K, val: T -> real, ks: seq<K>)
    requires NoDuplicates(ks)
    requires forall x :: x in xs ==> key(x) in ks
    ensures SumGroups(xs, key, val, ks) == Total(xs, val)
    decreases |xs|
  {
    if |xs| == 0 {
      SumGroupsEmpty(xs, key, val, ks);
    } else {
      var init, x := xs[..|xs| - 1], xs[|xs| - 1];
      assert xs == init + [x];
      assert x in xs;
      assert forall y :: y in init ==> y in xs;
      PartitionBy(init, key, val, ks);
      SumGroupsSnoc(init, x, key, val, ks);
    }
  }

  /** The groups of an empty table sum to zero. */
  lemma {:induction false} SumGroupsEmpty<T(!new), K(!new)>(xs: seq<T>, key: T -> K, val: T -> real, ks: seq<K>)
    requires xs == []
    ensures SumGroups(xs, key, val, ks) == 0.0
    decreases |ks|
  {
    if |ks| > 0 {
      SumGroupsEmpty(xs, key, val, ks[..|ks| - 1]);
    }
  }

  /** A table built with one row per key, whose value column holds that key's
      group total, has the column sum `SumGroups`. */
  lemma {:induction false} TotalOfGroupRows<T(!new), K(!new), R>(
    xs: seq<T>, key: T -> K, val: T -> real, ks: seq<K>, rows: seq<R>, f: R -> real)
    requires |rows| == |ks|
    requires forall j :: 0 <= j < |ks| ==> f(rows[j]) == GroupTotal(xs, key, val, ks[j])
    ensures Total(rows, f) == SumGroups(xs, key, val, ks)
    decreases |ks|
  {
    if |ks| > 0 {
      TotalOfGroupRows(xs, key, val, ks[..|ks| - 1], rows[..|rows| - 1], f);
    }
  }

  /** Two columns that agree position by position have the same sum. */
  lemma {:induction false} TotalPointwise<A, B>(xs: seq<A>, f: A -> real, ys: seq<B>, g: B -> real)
    requires |xs| == |ys|
    requires forall j :: 0 <= j < |xs| ==> f(xs[j]) == g(ys[j])
    ensures Total(xs, f) == Total(ys, g)
    decreases |xs|
  {
    if |xs| > 0 {
      TotalPointwise(xs[..|xs| - 1], f, ys[..|ys| - 1], g);
    }
  }

  /** Summing a pointwise smaller column gives a smaller total. */
  lemma {:induction false} TotalMono<T>(xs: seq<T>, f: T -> real, g: T -> real)
    requires forall x :: x in xs ==> f(x) <= g(x)
    ensures Total(xs, f) <= Total(xs, g)
    decreases |xs|
  {
    if |xs| > 0 {
      assert xs[|xs| - 1] in xs;
      assert forall x :: x in xs[..|xs| - 1] ==> x in xs;
      TotalMono(xs[..|xs| - 1], f, g);
    }
  }

  /** Summing a column that is the difference of two others gives the
      difference of their totals. */
  lemma {:induction false} TotalDifference<T>(xs: seq<T>, f: T -> real, g: T -> real, h: T -> real)
    requires forall x :: x in xs ==> h(x) == f(x) - g(x)
    ensures Total(xs, h) == Total(xs, f) - Total(xs, g)
    decreases |xs|
  {
    if |xs| > 0 {
      assert xs[|xs| - 1] in xs;
      assert forall x :: x in xs[..|xs| - 1] ==> x in xs;
      TotalDifference(xs[..|xs| - 1], f, g, h);
    }
  }

  /** Values strictly above `lo` and at most `hi` have a total strictly above
      `lo` times their count (when there is at least one) and at most `hi`
      times their count. */
  lemma {:induction false} TotalWithin<T>(xs: seq<T>, val: T -> real, lo: real, hi: real)
    requires forall x :: x in xs ==> lo < val(x) <= hi
    ensures |xs| > 0 ==> lo * (|xs| as real) < Total(xs, val)
    ensures Total(xs, val) <= hi * (|xs| as real)
    decreases |xs|
  {
    if |xs| > 0 {
      var init := xs[..|xs| - 1];
      assert xs[|xs| - 1] in xs;
      assert forall x :: x in init ==> x in xs;
      TotalWithin(init, val, lo, hi);
      WithinStep(lo, hi, |init| as real, Total(init, val), val(xs[|xs| - 1]));
      assert |xs| as real == |init| as real + 1.0;
    }
  }

  /** The arithmetic of one more value within (lo, hi]. */
  lemma WithinStep(lo: real, hi: real, n: real, t: real, v: real)
    requires lo < v <= hi && n >= 0.0
    requires n > 0.0 ==> lo * n < t
    requires n == 0.0 ==> t == 0.0
    requires t <= hi * n
    ensures lo * (n + 1.0) < t + v
    ensures t + v <= hi * (n + 1.0)
  {
    Distribute(lo, n);
    Distribute(hi, n);
  }

  lemma Distribute(c: real, a: real)
    ensures c * (a + 1.0) == c * a + c
  {
  }

  lemma TotalSnoc<T>(xs: seq<T>, x: T, val: T -> real)
    ensures Total(xs + [x], val) == Total(xs, val) + val(x)
  {
    assert (xs + [x])[..|xs|] == xs;
  }

  /** Two tables that agree row by row on key and value have equal group
      totals and group sizes, for every key. */
  lemma {:induction false} GroupTransfer<T(!new), U(!new), K(!new)>(
    xs: seq<T>, keyX: T -> K, valX: T -> real,
    ys: seq<U>, keyY: U -> K, valY: U -> real, k: K)
    requires |xs| == |ys|
    requires forall j :: 0 <= j < |xs| ==> keyX(xs[j]) == keyY(ys[j]) && valX(xs[j]) == valY(ys[j])
    ensures |Members(xs, keyX, k)| == |Members(ys, keyY, k)|
    ensures GroupTotal(xs, keyX, valX, k) == GroupTotal(ys, keyY, valY, k)
    decreases |xs|
  {
    if |xs| > 0 {
      var xi, yi := xs[..|xs| - 1], ys[..|ys| - 1];
      var x, y := xs[|xs| - 1], ys[|ys| - 1];
      GroupTransfer(xi, keyX, valX, yi, keyY, valY, k);
      assert keyY(y) == keyX(x) && valY(y) == valX(x);
      TotalSnoc(Members(xi, keyX, k), x, valX);
      TotalSnoc(Members(yi, keyY, k), y, valY);
    }
  }

  /** The least `f`-value over a non-empty table (pandas `min`). */
  function Least<T>(xs: seq<T>, f: T -> int): (m: int)
    requires |xs| > 0
    ensures exists x :: x in xs && f(x) == m
    ensures forall x :: x in xs ==> m <= f(x)
  {
    if |xs| == 1 then f(xs[0])
    else
      var rest := Least(xs[..|xs| - 1], f);
      assert xs == xs[..|xs| - 1] + [xs[|xs| - 1]];
      if f(xs[|xs| - 1]) < rest then f(xs[|xs| - 1]) else rest
  }

  /** The greatest `f`-value over a non-empty table (pandas `max`). */
  function Greatest<T>(xs: seq<T>, f: T -> int): (m: int)
    requires |xs| > 0
    ensures exists x :: x in xs && f(x) == m
    ensures forall x :: x in xs ==> f(x) <= m
  {
    if |xs| == 1 then f(xs[0])
    else
      var rest := Greatest(xs[..|xs| - 1], f);
      assert xs == xs[..|xs| - 1] + [xs[|xs| - 1]];
      if f(xs[|xs| - 1]) > rest then f(xs[|xs| - 1]) else rest
  }

  /** Summing the groups of two key lists one after the other. */
  lemma {:induction false} SumGroupsAppend<T(!new), K(!new)>(xs: seq<T>, key: T -> K, val: T -> real, a: seq<K>, b: seq<K>)
    ensures SumGroups(xs, key, val, a + b) == SumGroups(xs, key, val, a) + SumGroups(xs, key, val, b)
    decreases |b|
  {
    if |b| == 0 {
      assert a + b == a;
    } else {
      assert (a + b)[..|a + b| - 1] == a + b[..|b| - 1];
      SumGroupsAppend(xs, key, val, a, b[..|b| - 1]);
    }
  }

  /** Dropping the key at position `p` drops its group total from the sum. */
  lemma SumGroupsRemove<T(!new), K(!new)>(xs: seq<T>, key: T -> K, val: T -> real, b: seq<K>, p: nat)
    requires p < |b|
    ensures SumGroups(xs, key, val, b)
         == SumGroups(xs, key, val, b[..p] + b[p + 1..]) + GroupTotal(xs, key, val, b[p])
  {
    var k := b[p];
    assert b == b[..p] + [k] + b[p + 1..];
    SumGroupsAppend(xs, key, val, b[..p] + [k], b[p + 1..]);
    SumGroupsAppend(xs, key, val, b[..p], [k]);
    SumGroupsAppend(xs, key, val, b[..p], b[p + 1..]);
    assert SumGroups(xs, key, val, [k]) == GroupTotal(xs, key, val, k) by {
      assert [k][..0] == [];
    }
  }

  /** Dropping one entry of a duplicate-free list leaves a duplicate-free list
      of the other entries. */
  lemma RemoveAt<K(!new)>(b: seq<K>, p: nat)
    requires p < |b| && NoDuplicates(b)
    ensures NoDuplicates(b[..p] + b[p + 1..])
    ensures forall k :: k in b[..p] + b[p + 1..] <==> k in b && k != b[p]
  {
    var b' := b[..p] + b[p + 1..];
    forall i, j | 0 <= i < j < |b'| ensures b'[i] != b'[j] {
      var i' := if i < p then i else i + 1;
      var j' := if j < p then j else j + 1;
      assert b'[i] == b[i'] && b'[j] == b[j'];
    }
    forall k ensures k in b' <==> k in b && k != b[p] {
      if k in b' {
        var j :| 0 <= j < |b'| && b'[j] == k;
        var j' := if j < p then j else j + 1;
        assert b[j'] == k && j' != p;
      }
      if k in b && k != b[p] {
        var j :| 0 <= j < |b| && b[j] == k;
        if j < p { assert b'[j] == k; } else { assert b'[j - 1] == k; }
      }
    }
  }

  /** The sum of group totals does not depend on the order the keys are listed
      in: the index of a grouped table may be sorted without changing its
      column sums. */
  lemma {:induction false} SumGroupsReorder<T(!new), K(!new)>(xs: seq<T>, key: T -> K, val: T -> real, a: seq<K>, b: seq<K>)
    requires NoDuplicates(a) && NoDuplicates(b)
    requires |a| == |b|
    requires forall k :: k in a <==> k in b
    ensures SumGroups(xs, key, val, a) == SumGroups(xs, key, val, b)
    decreases |a|
  {
    if |a| > 0 {
      var n := |a| - 1;
      var k := a[n];
      assert k in a;
      var p :| 0 <= p < |b| && b[p] == k;
      SumGroupsRemove(xs, key, val, b, p);
      RemoveAt(b, p);
      RemoveAt(a, n);
      assert a[..n] + a[n + 1..] == a[..n];
      forall k' ensures k' in a[..n] <==> k' in b[..p] + b[p + 1..] {
        assert k' in a[..n] <==> k' in a && k' != k;
        assert k' in b[..p] + b[p + 1..] <==> k' in b && k' != k;
      }
      SumGroupsReorder(xs, key, val, a[..n], b[..p] + b[p + 1..]);
    }
  }

  /** The set of keys occurring in `xs`: an order-free reading of `GroupKeys`. */
  ghost function KeySet<T, K>(xs: seq<T>, key: T -> K): set<K>
  {
    set x | x in xs :: key(x)
  }

  lemma {:induction false} DistinctCount<K(!new)>(ks: seq<K>)
    requires NoDuplicates(ks)
    ensures |set k | k in ks| == |ks|
    decreases |ks|
  {
    if |ks| > 0 {
      var init := ks[..|ks| - 1];
      assert NoDuplicates(init);
      DistinctCount(init);
      assert (set k | k in ks) == (set k | k in init) + {ks[|ks| - 1]};
    }
  }

  /** A grouped table has exactly as many rows as there are distinct keys. */
  lemma GroupKeysCount<T(!new), K(!new)>(xs: seq<T>, key: T -> K)
    ensures |GroupKeys(xs, key)| == |KeySet(xs, key)|
  {
    var ks := GroupKeys(xs, key);
    forall k ensures k in ks <==> k in KeySet(xs, key) {
      if k in KeySet(xs, key) {
        var x :| x in xs && key(x) == k;
        assert x in Members(xs, key, k);
      }
    }
    assert (set k | k in ks) == KeySet(xs, key);
    DistinctCount(ks);
  }
}
