/** The array operations the list pages apply to their collections:
    `filter`, `find`, `filter(...).length`, `Array.from(new Set(...))`, and
    the page count the two management lists derive from a result's length. */
module Lists {
  import opened Js

  /** `xs.filter(keep)`: the kept elements, in their order. */
  function Filter<T>(xs: seq<T>, keep: T -> bool): (r: seq<T>)
    ensures |r| <= |xs|
  {
    if xs == [] then [] else (if keep(xs[0]) then [xs[0]] else []) + Filter(xs[1..], keep)
  }

  /** `r` is `xs` with some elements left out and the rest in their order. */
  predicate Subsequence<T(==)>(r: seq<T>, xs: seq<T>)
    decreases |xs|
  {
    r == [] || (xs != [] && ((r[0] == xs[0] && Subsequence(r[1..], xs[1..])) || Subsequence(r, xs[1..])))
  }

  /** An element is kept iff it is in `xs` and passes the test. */
  lemma {:induction false} FilterMembers<T>(xs: seq<T>, keep: T -> bool)
    ensures forall x :: x in Filter(xs, keep) <==> x in xs && keep(x)
  {
    if xs != [] {
      FilterMembers(xs[1..], keep);
      assert xs == [xs[0]] + xs[1..];
    }
  }

  /** The filtered list keeps the order of `xs`. */
  lemma {:induction false} FilterSubsequence<T>(xs: seq<T>, keep: T -> bool)
    ensures Subsequence(Filter(xs, keep), xs)
  {
    if xs != [] {
      FilterSubsequence(xs[1..], keep);
      var r := Filter(xs, keep);
      if keep(xs[0]) {
        assert r[0] == xs[0] && r[1..] == Filter(xs[1..], keep);
      } else {
        assert r == Filter(xs[1..], keep);
      }
    }
  }

  /** Filtering keeps every copy of a passing element and no copy of a
      failing one. */
  lemma {:induction false} FilterMultiplicity<T>(xs: seq<T>, keep: T -> bool, x: T)
    ensures multiset(Filter(xs, keep))[x] == if keep(x) then multiset(xs)[x] else 0
  {
    if xs != [] {
      FilterMultiplicity(xs[1..], keep, x);
      assert xs == [xs[0]] + xs[1..];
    }
  }

  /** A test every element passes keeps the whole list. */
  lemma {:induction false} FilterAll<T>(xs: seq<T>, keep: T -> bool)
    requires forall i :: 0 <= i < |xs| ==> keep(xs[i])
    ensures Filter(xs, keep) == xs
  {
    if xs != [] {
      FilterAll(xs[1..], keep);
    }
  }

  /** Filtering one more element at the end. */
  lemma {:induction false} FilterSnoc<T>(xs: seq<T>, x: T, keep: T -> bool)
    ensures Filter(xs + [x], keep) == Filter(xs, keep) + if keep(x) then [x] else []
  {
    if xs == [] {
      assert xs + [x] == [x];
    } else {
      var tail := if keep(x) then [x] else [];
      assert (xs + [x])[0] == xs[0];
      assert (xs + [x])[1..] == xs[1..] + [x];
      FilterSnoc(xs[1..], x, keep);
      assert Filter(xs + [x], keep) == (if keep(xs[0]) then [xs[0]] else []) + (Filter(xs[1..], keep) + tail);
    }
  }

  /** `xs.find(p)`: the first element passing `p`, or undefined. */
  function Find<T>(xs: seq<T>, p: T -> bool): (r: Option<T>)
  {
    if xs == [] then None else if p(xs[0]) then Some(xs[0]) else Find(xs[1..], p)
  }

  /** `find` answers the first element that passes, and undefined only
      when none does. */
  lemma {:induction false} FindFirst<T>(xs: seq<T>, p: T -> bool)
    ensures Find(xs, p).None? <==> forall i :: 0 <= i < |xs| ==> !p(xs[i])
    ensures Find(xs, p).Some? ==>
              exists i :: 0 <= i < |xs| && xs[i] == Find(xs, p).value && p(xs[i])
                          && forall j :: 0 <= j < i ==> !p(xs[j])
  {
    if xs != [] && !p(xs[0]) {
      FindFirst(xs[1..], p);
      if Find(xs, p).Some? {
        var i :| 0 <= i < |xs[1..]| && xs[1..][i] == Find(xs, p).value && p(xs[1..][i])
                 && forall j :: 0 <= j < i ==> !p(xs[1..][j]);
        assert xs[i + 1] == Find(xs, p).value;
        assert forall j :: 0 <= j < i + 1 ==> !p(xs[j]) by {
          forall j | 0 <= j < i + 1
            ensures !p(xs[j])
          {
            if j > 0 { assert xs[j] == xs[1..][j - 1]; }
          }
        }
      }
    }
  }

  /** `find` answers the element at the first index that passes. */
  lemma {:induction false} FindAt<T>(xs: seq<T>, p: T -> bool, i: int)
    requires 0 <= i < |xs| && p(xs[i])
    requires forall j :: 0 <= j < i ==> !p(xs[j])
    ensures Find(xs, p) == Some(xs[i])
  {
    if i > 0 {
      assert !p(xs[0]);
      FindAt(xs[1..], p, i - 1);
    }
  }

  /** `xs.filter(x => idOf(x) !== id)`: every element whose id differs,
      in order. */
  function RemoveId<T(!new)>(xs: seq<T>, idOf: T -> int, id: int): (r: seq<T>)
    ensures forall x :: x in r <==> x in xs && idOf(x) != id
    ensures Subsequence(r, xs)
  {
    var keep := (x: T) => idOf(x) != id;
    FilterMembers(xs, keep);
    FilterSubsequence(xs, keep);
    Filter(xs, keep)
  }

  /** `Array.from(new Set(xs))`: each value once, in the order of its first
      occurrence. */
  function Distinct<T(==)>(xs: seq<T>): (r: seq<T>)
  {
    if xs == [] then []
    else
      var d := Distinct(xs[..|xs| - 1]);
      if xs[|xs| - 1] in d then d else d + [xs[|xs| - 1]]
  }

  predicate NoDuplicates<T(==)>(s: seq<T>) {
    forall i, j :: 0 <= i < j < |s| ==> s[i] != s[j]
  }

  /** The set holds exactly the values of `xs`, each once. */
  lemma {:induction false} DistinctMeaning<T>(xs: seq<T>)
    ensures forall x :: x in Distinct(xs) <==> x in xs
    ensures NoDuplicates(Distinct(xs))
  {
    if xs != [] {
      var init := xs[..|xs| - 1];
      DistinctMeaning(init);
      assert xs == init + [xs[|xs| - 1]];
    }
  }

  /** The sum over `keys` of how often each occurs in `xs`. */
  function Total<T(==)>(keys: seq<T>, xs: seq<T>): nat {
    if keys == [] then 0 else multiset(xs)[keys[0]] + Total(keys[1..], xs)
  }

  lemma {:induction false} TotalSnocKey<T>(keys: seq<T>, k: T, xs: seq<T>)
    ensures Total(keys + [k], xs) == Total(keys, xs) + multiset(xs)[k]
  {
    if keys == [] {
      assert keys + [k] == [k];
    } else {
      assert (keys + [k])[1..] == keys[1..] + [k];
      TotalSnocKey(keys[1..], k, xs);
    }
  }

  lemma {:induction false} TotalSnocValue<T>(keys: seq<T>, xs: seq<T>, x: T)
    requires NoDuplicates(keys)
    ensures Total(keys, xs + [x]) == Total(keys, xs) + if x in keys then 1 else 0
  {
    if keys != [] {
      assert multiset(xs + [x]) == multiset(xs) + multiset{x};
      TotalSnocValue(keys[1..], xs, x);
      assert x in keys[1..] ==> x != keys[0];
      assert x in keys <==> x == keys[0] || x in keys[1..] by {
        assert keys == [keys[0]] + keys[1..];
      }
    }
  }

  /** Counting every value of `xs` once per distinct value accounts for
      every element of `xs` exactly once. */
  lemma {:induction false} DistinctTotal<T>(xs: seq<T>)
    ensures Total(Distinct(xs), xs) == |xs|
  {
    if xs != [] {
      var init := xs[..|xs| - 1];
      var x := xs[|xs| - 1];
      assert xs == init + [x];
      DistinctTotal(init);
      DistinctMeaning(init);
      var d := Distinct(init);
      TotalSnocValue(d, init, x);
      if x !in d {
        TotalSnocKey(d, x, xs);
        assert multiset(init)[x] == 0;
        assert multiset(xs) == multiset(init) + multiset{x};
      }
    }
  }

  /** `Math.ceil(n / 10) || 1`: the number of ten-row pages `n` rows
      fill, and one page when there are none. */
  function PageCount(n: nat): (pages: nat)
    ensures pages >= 1
    ensures n == 0 ==> pages == 1
    ensures n > 0 ==> (pages - 1) * 10 < n <= pages * 10
  {
    if n == 0 then 1 else (n + 9) / 10
  }
}
