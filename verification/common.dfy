/**
 * Shared vocabulary of the model: optional cells (a pandas NaN is `None`),
 * the exceptions the pipeline can raise, sums over real columns, insertion-
 * ordered association lists (Python dicts) and sorted views of day numbers.
 */
module Common {

  /** A cell that may be missing; `None` stands for NaN / NaT. */
  datatype Option<+T> = None | Some(value: T)

  /** The value of a cell, with a missing cell counting as 0 (`fillna(0)`). */
  function OrZero(x: Option<real>): real
  {
    if x.Some? then x.value else 0.0
  }

  /** The exceptions the modelled code can raise. */
  datatype Error =
    | DivisionByZero          // ZeroDivisionError on Python ints
    | IndexOutOfBounds        // pandas `.iloc[0]` on an empty series
    | NoCoverage              // `strftime` on the NaT minimum of an empty index
    | UnsupportedAlias(alias: string)  // a resampling alias this model does not cover

  datatype Result<+T> = Success(value: T) | Failure(error: Error)

  /** A column of a table: `f` applied to every row, in row order. */
  function MapRows<R, X>(rows: seq<R>, f: R -> X): (xs: seq<X>)
    ensures |xs| == |rows| && forall k :: 0 <= k < |rows| ==> xs[k] == f(rows[k])
  {
    seq(|rows|, k requires 0 <= k < |rows| => f(rows[k]))
  }

  /* ---------------------------------------------------------------------- */
  /* Sums                                                                    */
  /* ---------------------------------------------------------------------- */

  /** Left-to-right sum of a real column. */
  function Sum(xs: seq<real>): real
  {
    if |xs| == 0 then 0.0 else Sum(xs[..|xs| - 1]) + xs[|xs| - 1]
  }

  /** pandas `Series.sum()`: missing cells are skipped, an all-missing column sums to 0. */
  function SumPresent(xs: seq<Option<real>>): real
  {
    if |xs| == 0 then 0.0 else SumPresent(xs[..|xs| - 1]) + OrZero(xs[|xs| - 1])
  }

  /**
   * pandas `Series.count()`: the number of cells that are present, as a
   * number it is divided by and compared with other column statistics.
   */
  function CountPresent<T>(xs: seq<Option<T>>): real
  {
    if |xs| == 0 then 0.0 else CountPresent(xs[..|xs| - 1]) + (if xs[|xs| - 1].Some? then 1.0 else 0.0)
  }

  /** At most every cell is present, and exactly every cell is when none is missing. */
  lemma {:induction false} CountPresentBound<T>(xs: seq<Option<T>>)
    ensures 0.0 <= CountPresent(xs) <= |xs| as real
    ensures CountPresent(xs) == |xs| as real <==> forall i :: 0 <= i < |xs| ==> xs[i].Some?
    decreases |xs|
  {
    if |xs| > 0 {
      CountPresentBound(xs[..|xs| - 1]);
      assert forall i :: 0 <= i < |xs| - 1 ==> xs[..|xs| - 1][i] == xs[i];
    }
  }

  lemma {:induction false} CountPresentZero<T>(xs: seq<Option<T>>)
    ensures CountPresent(xs) == 0.0 <==> forall i :: 0 <= i < |xs| ==> xs[i].None?
    decreases |xs|
  {
    if |xs| > 0 {
      CountPresentZero(xs[..|xs| - 1]);
      CountPresentBound(xs[..|xs| - 1]);
      assert forall i :: 0 <= i < |xs| - 1 ==> xs[..|xs| - 1][i] == xs[i];
    }
  }

  lemma {:induction false} SumAppend(a: seq<real>, b: seq<real>)
    ensures Sum(a + b) == Sum(a) + Sum(b)
    decreases |b|
  {
    if |b| == 0 {
      assert a + b == a;
    } else {
      var b' := b[..|b| - 1];
      assert (a + b)[..|a + b| - 1] == a + b';
      SumAppend(a, b');
    }
  }

  lemma {:induction false} SumBounds(xs: seq<real>, lo: real, hi: real)
    requires forall k :: 0 <= k < |xs| ==> lo <= xs[k] <= hi
    ensures lo * |xs| as real <= Sum(xs) <= hi * |xs| as real
    decreases |xs|
  {
    if |xs| > 0 {
      SumBounds(xs[..|xs| - 1], lo, hi);
    }
  }

  lemma {:induction false} SumPresentAppend(a: seq<Option<real>>, b: seq<Option<real>>)
    ensures SumPresent(a + b) == SumPresent(a) + SumPresent(b)
    ensures CountPresent(a + b) == CountPresent(a) + CountPresent(b)
    decreases |b|
  {
    if |b| == 0 {
      assert a + b == a;
    } else {
      var b' := b[..|b| - 1];
      assert (a + b)[..|a + b| - 1] == a + b';
      SumPresentAppend(a, b');
    }
  }

  /* ---------------------------------------------------------------------- */
  /* Insertion-ordered dictionaries                                          */
  /* ---------------------------------------------------------------------- */

  function Keys<K, V>(d: seq<(K, V)>): seq<K>
  {
    seq(|d|, k requires 0 <= k < |d| => d[k].0)
  }

  ghost predicate UniqueKeys<K, V>(d: seq<(K, V)>)
  {
    forall i, j :: 0 <= i < j < |d| ==> d[i].0 != d[j].0
  }

  /** Position of key `k` in `d`, if it is there. */
  function Find<K(==), V>(d: seq<(K, V)>, k: K): (r: Option<nat>)
    ensures r.Some? ==> r.value < |d| && d[r.value].0 == k
    ensures r.None? <==> forall j :: 0 <= j < |d| ==> d[j].0 != k
  {
    if |d| == 0 then None
    else if d[0].0 == k then Some(0)
    else match Find(d[1..], k)
      case None => None
      case Some(j) => Some(j + 1)
  }

  /** Python `d.get(k)`. */
  function Lookup<K(==,!new), V>(d: seq<(K, V)>, k: K): Option<V>
  {
    match Find(d, k)
    case None => None
    case Some(j) => Some(d[j].1)
  }

  /**
   * Python `d[k] = v`: an existing key keeps its position and takes the new
   * value; a new key is appended at the end.
   */
  function Put<K(==,!new), V>(d: seq<(K, V)>, k: K, v: V): (r: seq<(K, V)>)
    requires UniqueKeys(d)
    ensures UniqueKeys(r)
    ensures Lookup(r, k) == Some(v)
    ensures forall k' :: k' != k ==> Lookup(r, k') == Lookup(d, k')
    ensures forall j :: 0 <= j < |d| ==> j < |r| && r[j].0 == d[j].0
    ensures Lookup(d, k).None? ==> r == d + [(k, v)]
    ensures Lookup(d, k).Some? ==> |r| == |d|
  {
    match Find(d, k)
    case None =>
      var r := d + [(k, v)];
      assert forall k' :: k' != k ==> Find(r, k') == Find(d, k') by {
        forall k' | k' != k
          ensures Find(r, k') == Find(d, k')
        {
          FindAppend(d, (k, v), k');
        }
      }
      FindAppend(d, (k, v), k);
      r
    case Some(j) =>
      var r := d[j := (k, v)];
      assert forall k' :: Find(r, k') == Find(d, k') by {
        forall k' ensures Find(r, k') == Find(d, k') {
          FindSameKeys(d, r, k');
        }
      }
      r
  }

  /** A key that occurs in the list is found. */
  lemma {:induction false} FindPresent<K, V>(d: seq<(K, V)>, j: nat, k: K)
    requires j < |d| && d[j].0 == k
    ensures Find(d, k).Some?
    decreases j
  {
    if j > 0 && d[0].0 != k {
      FindPresent(d[1..], j - 1, k);
    }
  }

  /** The first occurrence of a key is the one found, and `Lookup` yields its value. */
  lemma {:induction false} FindFirst<K(!new), V>(d: seq<(K, V)>, j: nat, k: K)
    requires j < |d| && d[j].0 == k
    requires forall i :: 0 <= i < j ==> d[i].0 != k
    ensures Find(d, k) == Some(j)
    ensures Lookup(d, k) == Some(d[j].1)
    decreases j
  {
    if j > 0 {
      FindFirst(d[1..], j - 1, k);
    }
  }

  lemma {:induction false} FindAppend<K, V>(d: seq<(K, V)>, p: (K, V), k: K)
    ensures Find(d, k).Some? ==> Find(d + [p], k) == Find(d, k)
    ensures Find(d, k).None? && p.0 == k ==> Find(d + [p], k) == Some(|d|)
    ensures Find(d, k).None? && p.0 != k ==> Find(d + [p], k).None?
    decreases |d|
  {
    if |d| > 0 {
      assert (d + [p])[1..] == d[1..] + [p];
      FindAppend(d[1..], p, k);
    }
  }

  lemma {:induction false} FindSameKeys<K, V>(d: seq<(K, V)>, e: seq<(K, V)>, k: K)
    requires |d| == |e|
    requires forall j :: 0 <= j < |d| ==> d[j].0 == e[j].0
    ensures Find(d, k) == Find(e, k)
    decreases |d|
  {
    if |d| > 0 {
      FindSameKeys(d[1..], e[1..], k);
    }
  }

  /** The value paired with `k` by the last pair that carries it. */
  function LastValue<K(==,!new), V>(ps: seq<(K, V)>, k: K): Option<V>
  {
    if |ps| == 0 then None
    else if ps[|ps| - 1].0 == k then Some(ps[|ps| - 1].1)
    else LastValue(ps[..|ps| - 1], k)
  }

  /** Python `dict(zip(keys, values))` over already zipped pairs. */
  function FromPairs<K(==,!new), V>(ps: seq<(K, V)>): (r: seq<(K, V)>)
    ensures UniqueKeys(r)
    ensures forall k :: Lookup(r, k) == LastValue(ps, k)
  {
    if |ps| == 0 then []
    else Put(FromPairs(ps[..|ps| - 1]), ps[|ps| - 1].0, ps[|ps| - 1].1)
  }

  /* ---------------------------------------------------------------------- */
  /* Order                                                                   */
  /* ---------------------------------------------------------------------- */

  ghost predicate StrictlyAscending(xs: seq<int>)
  {
    forall i, j :: 0 <= i < j < |xs| ==> xs[i] < xs[j]
  }

  ghost predicate Ascending(xs: seq<int>)
  {
    forall i, j :: 0 <= i < j < |xs| ==> xs[i] <= xs[j]
  }

  /** Drop repeated neighbours of an ascending sequence. */
  function Dedup(xs: seq<int>): (r: seq<int>)
    requires Ascending(xs)
    ensures StrictlyAscending(r)
    ensures forall x :: x in r <==> x in xs
    ensures |xs| > 0 ==> |r| > 0 && r[|r| - 1] == xs[|xs| - 1]
  {
    if |xs| <= 1 then xs
    else
      var r := Dedup(xs[..|xs| - 1]);
      if xs[|xs| - 1] == xs[|xs| - 2] then r else r + [xs[|xs| - 1]]
  }

  /** Python `sorted(set(xs))` for day numbers. */
  function SortedSet(xs: seq<int>): (r: seq<int>)
    ensures StrictlyAscending(r)
    ensures forall x :: x in r <==> x in xs
  {
    var s := SortByKey(xs, x => x);
    assert forall x :: x in s <==> x in multiset(s);
    assert forall x :: x in xs <==> x in multiset(xs);
    Dedup(s)
  }

  /** Insert `x` into an ascending sequence after every element with an equal or smaller key. */
  function InsertByKey<T>(x: T, xs: seq<T>, key: T -> int): (r: seq<T>)
    requires forall i, j :: 0 <= i < j < |xs| ==> key(xs[i]) <= key(xs[j])
    ensures forall i, j :: 0 <= i < j < |r| ==> key(r[i]) <= key(r[j])
    ensures multiset(r) == multiset(xs) + multiset{x}
    ensures |r| == |xs| + 1
    ensures key(r[0]) == key(x) || (|xs| > 0 && key(r[0]) == key(xs[0]))
  {
    if |xs| == 0 then [x]
    else if key(x) < key(xs[0]) then [x] + xs
    else
      var rest := InsertByKey(x, xs[1..], key);
      assert xs == [xs[0]] + xs[1..];
      assert forall j :: 0 <= j < |rest| ==> key(xs[0]) <= key(rest[j]) by {
        assert key(xs[0]) <= key(rest[0]);
      }
      [xs[0]] + rest
  }

  /**
   * A stable sort by an integer key (the dates of a table). pandas sorts with
   * an unstable quicksort; both agree whenever the keys are distinct.
   */
  function SortByKey<T>(xs: seq<T>, key: T -> int): (r: seq<T>)
    ensures forall i, j :: 0 <= i < j < |r| ==> key(r[i]) <= key(r[j])
    ensures multiset(r) == multiset(xs)
    ensures |r| == |xs|
  {
    if |xs| == 0 then []
    else
      assert xs == xs[..|xs| - 1] + [xs[|xs| - 1]];
      InsertByKey(xs[|xs| - 1], SortByKey(xs[..|xs| - 1], key), key)
  }

  /**
   * Boolean-mask selection `df[mask]`: the rows that satisfy `keep`, in
   * their original order, each as often as it occurs.
   */
  function Filter<T(==,!new)>(xs: seq<T>, keep: T -> bool): (r: seq<T>)
    ensures forall x :: multiset(r)[x] == if keep(x) then multiset(xs)[x] else 0
    ensures forall x :: x in r <==> x in xs && keep(x)
    ensures |r| <= |xs|
  {
    if |xs| == 0 then []
    else
      var n := |xs| - 1;
      assert xs == xs[..n] + [xs[n]];
      Filter(xs[..n], keep) + (if keep(xs[n]) then [xs[n]] else [])
  }

  /** Selecting from a strictly ascending sequence keeps it strictly ascending. */
  lemma {:induction false} FilterKeepsStrictOrder(xs: seq<int>, keep: int -> bool)
    requires StrictlyAscending(xs)
    ensures StrictlyAscending(Filter(xs, keep))
    decreases |xs|
  {
    if |xs| > 0 {
      var n := |xs| - 1;
      assert StrictlyAscending(xs[..n]);
      FilterKeepsStrictOrder(xs[..n], keep);
      FilterStrictlyBelow(xs[..n], keep, xs[n]);
      if keep(xs[n]) {
        AppendKeepsStrictOrder(Filter(xs[..n], keep), xs[n]);
      }
    }
  }

  lemma {:induction false} FilterStrictlyBelow(xs: seq<int>, keep: int -> bool, bound: int)
    requires forall i :: 0 <= i < |xs| ==> xs[i] < bound
    ensures forall i :: 0 <= i < |Filter(xs, keep)| ==> Filter(xs, keep)[i] < bound
  {
    var r := Filter(xs, keep);
    forall i | 0 <= i < |r|
      ensures r[i] < bound
    {
      assert r[i] in xs;
    }
  }

  lemma {:induction false} AppendKeepsStrictOrder(prev: seq<int>, x: int)
    requires StrictlyAscending(prev)
    requires forall i :: 0 <= i < |prev| ==> prev[i] < x
    ensures StrictlyAscending(prev + [x])
  {
  }

  /** `xs` is ordered by `key`, ties allowed. */
  ghost predicate SortedBy<T>(xs: seq<T>, key: T -> int)
  {
    forall i, j :: 0 <= i < j < |xs| ==> key(xs[i]) <= key(xs[j])
  }

  /** Selecting from a sequence ordered by a key keeps it ordered by that key. */
  lemma {:induction false} FilterKeepsOrderBy<T(!new)>(xs: seq<T>, keep: T -> bool, key: T -> int)
    requires SortedBy(xs, key)
    ensures SortedBy(Filter(xs, keep), key)
    decreases |xs|
  {
    if |xs| > 0 {
      var n := |xs| - 1;
      assert SortedBy(xs[..n], key);
      FilterKeepsOrderBy(xs[..n], keep, key);
      FilterBelow(xs[..n], keep, key, key(xs[n]));
      if keep(xs[n]) {
        AppendKeepsOrderBy(Filter(xs[..n], keep), xs[n], key);
      }
    }
  }

  /** Whatever is selected from elements no greater than a bound stays below it. */
  lemma {:induction false} FilterBelow<T(!new)>(xs: seq<T>, keep: T -> bool, key: T -> int, bound: int)
    requires forall i :: 0 <= i < |xs| ==> key(xs[i]) <= bound
    ensures forall i :: 0 <= i < |Filter(xs, keep)| ==> key(Filter(xs, keep)[i]) <= bound
  {
    var r := Filter(xs, keep);
    forall i | 0 <= i < |r|
      ensures key(r[i]) <= bound
    {
      assert r[i] in xs;
    }
  }

  lemma {:induction false} AppendKeepsOrderBy<T>(prev: seq<T>, x: T, key: T -> int)
    requires SortedBy(prev, key)
    requires forall i :: 0 <= i < |prev| ==> key(prev[i]) <= key(x)
    ensures SortedBy(prev + [x], key)
  {
  }

  /** Two sequences that are permutations of each other hold the same elements. */
  lemma {:induction false} PermutationKeepsMembers<T>(a: seq<T>, b: seq<T>, x: T)
    requires multiset(a) == multiset(b)
    ensures x in a <==> x in b
  {
    assert x in a <==> x in multiset(a);
    assert x in b <==> x in multiset(b);
  }

  /** Python `xs[:n]` for a non-negative `n`. */
  function Take<T>(xs: seq<T>, n: nat): (r: seq<T>)
    ensures |r| == if |xs| < n then |xs| else n
    ensures r == xs[..|r|]
  {
    if |xs| <= n then xs else xs[..n]
  }

  function Abs(x: int): nat
  {
    if x < 0 then -x else x
  }

  function MaxReal(a: real, b: real): real
  {
    if a < b then b else a
  }
}
