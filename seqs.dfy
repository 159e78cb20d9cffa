/** The list transforms every page applies to its records: `filter`, `find`,
    `map` with an id test, and `reduce` sums. A record's id is given by a key
    function, so the same definitions serve customers, products, sales, staff,
    suppliers and appointments. */
module Seqs {
  import opened Wrappers

  /** `a` is `b` with some elements deleted and the rest kept in order. */
  predicate IsSubsequence<T(==)>(a: seq<T>, b: seq<T>)
    decreases |b|
  {
    if b == [] then a == []
    else (a != [] && a[0] == b[0] && IsSubsequence(a[1..], b[1..])) || IsSubsequence(a, b[1..])
  }

  lemma {:induction false} SubsequenceElements<T>(a: seq<T>, b: seq<T>)
    requires IsSubsequence(a, b)
    ensures |a| <= |b|
    ensures forall x :: x in a ==> x in b
    decreases |b|
  {
    if b != [] {
      if a != [] && a[0] == b[0] && IsSubsequence(a[1..], b[1..]) {
        SubsequenceElements(a[1..], b[1..]);
        assert a == [a[0]] + a[1..];
      } else {
        SubsequenceElements(a, b[1..]);
      }
    }
  }

  lemma {:induction false} SubsequenceReflexive<T>(s: seq<T>)
    ensures IsSubsequence(s, s)
  {
    if s != [] {
      SubsequenceReflexive(s[1..]);
    }
  }

  // ---------------------------------------------------------------------------
  // filter

  /** `s.filter(keep)`. */
  function Filter<T(==,!new)>(s: seq<T>, keep: T -> bool): (r: seq<T>)
    ensures IsSubsequence(r, s)
    ensures forall x :: x in r <==> x in s && keep(x)
    ensures forall x :: multiset(r)[x] == if keep(x) then multiset(s)[x] else 0
  {
    if s == [] then []
    else
      assert s == [s[0]] + s[1..];
      if keep(s[0]) then [s[0]] + Filter(s[1..], keep)
      else Filter(s[1..], keep)
  }

  /** A filter that keeps every element returns the list itself. */
  lemma {:induction false} FilterKeepsAll<T(!new)>(s: seq<T>, keep: T -> bool)
    requires forall x :: x in s ==> keep(x)
    ensures Filter(s, keep) == s
  {
    if s != [] {
      FilterKeepsAll(s[1..], keep);
      assert keep(s[0]) && Filter(s, keep) == [s[0]] + Filter(s[1..], keep);
      assert s == [s[0]] + s[1..];
    }
  }

  /** A narrower filter applied to the whole list gives what it gives applied to
      a wider filter's result; so the narrower result is a subsequence of the wider. */
  lemma {:induction false} FilterNarrower<T(!new)>(s: seq<T>, narrow: T -> bool, wide: T -> bool)
    requires forall x :: x in s && narrow(x) ==> wide(x)
    ensures Filter(s, narrow) == Filter(Filter(s, wide), narrow)
    ensures IsSubsequence(Filter(s, narrow), Filter(s, wide))
  {
    if s != [] {
      FilterNarrower(s[1..], narrow, wide);
      if wide(s[0]) {
        assert Filter(s, wide) == [s[0]] + Filter(s[1..], wide);
        assert ([s[0]] + Filter(s[1..], wide))[1..] == Filter(s[1..], wide);
      }
    }
  }

  /** A filter that keeps no element returns the empty list. */
  lemma FilterKeepsNone<T(!new)>(s: seq<T>, keep: T -> bool)
    requires forall x :: x in s ==> !keep(x)
    ensures Filter(s, keep) == []
  {
  }

  // ---------------------------------------------------------------------------
  // Keyed operations: `s.filter(x => x.id !== k)`, `s.map(x => x.id === k ? … : x)`,
  // `s.find(x => x.id === k)`

  /** `s.filter(x => key(x) !== k)`: delete by id. */
  function RemoveKey<T(==,!new)>(s: seq<T>, key: T -> string, k: string): (r: seq<T>)
    ensures IsSubsequence(r, s)
    ensures forall x :: x in r <==> x in s && key(x) != k
  {
    if s == [] then []
    else if key(s[0]) == k then RemoveKey(s[1..], key, k)
    else [s[0]] + RemoveKey(s[1..], key, k)
  }

  /** `s.filter(x => key(x) === k)`: the elements carrying the key `k`, in order. */
  function SelectKey<T(==,!new)>(s: seq<T>, key: T -> string, k: string): (r: seq<T>)
    ensures IsSubsequence(r, s)
    ensures forall x :: x in r <==> x in s && key(x) == k
    ensures |r| == Occurrences(s, key, k)
  {
    if s == [] then []
    else if key(s[0]) == k then [s[0]] + SelectKey(s[1..], key, k)
    else SelectKey(s[1..], key, k)
  }

  /** How many elements of `s` carry the id `k`. */
  function Occurrences<T>(s: seq<T>, key: T -> string, k: string): nat {
    if s == [] then 0 else (if key(s[0]) == k then 1 else 0) + Occurrences(s[1..], key, k)
  }

  /** Deleting by id removes exactly the elements carrying that id. */
  lemma {:induction false} RemoveKeyLength<T(!new)>(s: seq<T>, key: T -> string, k: string)
    ensures |RemoveKey(s, key, k)| == |s| - Occurrences(s, key, k)
  {
    if s != [] {
      RemoveKeyLength(s[1..], key, k);
    }
  }

  /** An id that no element carries has no occurrence. */
  lemma {:induction false} AbsentKeyNoOccurrence<T>(s: seq<T>, key: T -> string, k: string)
    requires forall x :: x in s ==> key(x) != k
    ensures Occurrences(s, key, k) == 0
  {
    if s != [] {
      AbsentKeyNoOccurrence(s[1..], key, k);
    }
  }

  /** Deleting an id that no element carries changes nothing. */
  lemma {:induction false} RemoveAbsentKey<T(!new)>(s: seq<T>, key: T -> string, k: string)
    requires forall x :: x in s ==> key(x) != k
    ensures RemoveKey(s, key, k) == s
  {
    if s != [] {
      RemoveAbsentKey(s[1..], key, k);
      assert s == [s[0]] + s[1..];
    }
  }

  /** After deleting an id, looking it up finds nothing. */
  lemma RemovedKeyNotFound<T(!new)>(s: seq<T>, key: T -> string, k: string)
    ensures FindKey(RemoveKey(s, key, k), key, k).None?
  {
    var r := RemoveKey(s, key, k);
    assert forall i :: 0 <= i < |r| ==> r[i] in r;
  }

  /** `s.map(x => key(x) === k ? merge(x, p) : x)`: the elements carrying the id
      `k` are replaced by their merge with `p`, all others stay where they are. */
  function MapKey<T, P>(s: seq<T>, key: T -> string, k: string, merge: (T, P) -> T, p: P): (r: seq<T>)
    ensures |r| == |s|
    ensures forall i :: 0 <= i < |s| ==> r[i] == if key(s[i]) == k then merge(s[i], p) else s[i]
  {
    if s == [] then []
    else [if key(s[0]) == k then merge(s[0], p) else s[0]] + MapKey(s[1..], key, k, merge, p)
  }

  /** `s.filter((_, j) => j !== i)`: position `i` deleted, the rest kept in
      order; nothing is deleted when `i` is not a position of `s`. */
  function RemoveAt<T>(s: seq<T>, i: nat): (r: seq<T>)
    ensures i < |s| ==> |r| == |s| - 1
    ensures i >= |s| ==> r == s
    ensures forall j :: 0 <= j < i && j < |r| ==> r[j] == s[j]
    ensures forall j :: i <= j < |r| ==> r[j] == s[j + 1]
  {
    if i < |s| then s[..i] + s[i + 1..] else s
  }

  /** The merge that ignores the old record: `prev.map(o => o.id === s.id ? s : o)`. */
  function Overwrite<T>(previous: T, next: T): T {
    next
  }

  /** `s.find(x => key(x) === k)`: the first element carrying the id `k`. */
  function FindKey<T>(s: seq<T>, key: T -> string, k: string): (r: Option<T>)
    ensures r.None? <==> forall i :: 0 <= i < |s| ==> key(s[i]) != k
    ensures r.Some? ==> exists i :: 0 <= i < |s| && s[i] == r.value && key(s[i]) == k
                                  && forall j :: 0 <= j < i ==> key(s[j]) != k
  {
    if s == [] then None
    else if key(s[0]) == k then Some(s[0])
    else
      var r := FindKey(s[1..], key, k);
      assert r.Some? ==> exists i :: 1 <= i < |s| && s[i] == r.value && key(s[i]) == k
                                     && forall j :: 0 <= j < i ==> key(s[j]) != k by {
        if r.Some? {
          var i :| 0 <= i < |s| - 1 && s[1..][i] == r.value && key(s[1..][i]) == k
                   && forall j :: 0 <= j < i ==> key(s[1..][j]) != k;
          assert forall j :: 1 <= j < i + 1 ==> key(s[j]) != k by {
            forall j | 1 <= j < i + 1 ensures key(s[j]) != k {
              assert s[j] == s[1..][j - 1];
            }
          }
        }
      }
      r
  }

  /** Looking up in a list with one more element at the end finds what the
      list found, or else the new element when it carries the id. */
  lemma {:induction false} FindKeyAppend<T>(s: seq<T>, x: T, key: T -> string, k: string)
    ensures FindKey(s + [x], key, k)
            == if FindKey(s, key, k).Some? then FindKey(s, key, k)
               else if key(x) == k then Some(x) else None
  {
    if s == [] {
      assert s + [x] == [x];
      assert [x][1..] == [];
    } else {
      FindKeyAppend(s[1..], x, key, k);
      assert (s + [x])[1..] == s[1..] + [x];
    }
  }

  // ---------------------------------------------------------------------------
  // reduce

  /** `s.reduce((acc, x) => acc + f(x), 0)`. */
  function SumOf<T>(s: seq<T>, f: T -> real): real {
    if s == [] then 0.0 else f(s[0]) + SumOf(s[1..], f)
  }

  /** Summing a concatenation sums the two parts. */
  lemma {:induction false} SumOfAppend<T>(a: seq<T>, b: seq<T>, f: T -> real)
    ensures SumOf(a + b, f) == SumOf(a, f) + SumOf(b, f)
  {
    if a == [] {
      assert a + b == b;
    } else {
      assert (a + b)[1..] == a[1..] + b;
      SumOfAppend(a[1..], b, f);
    }
  }

  /** Replacing one term changes the sum by the difference. */
  lemma {:induction false} SumOfUpdate<T>(s: seq<T>, i: nat, x: T, f: T -> real)
    requires i < |s|
    ensures SumOf(s[i := x], f) == SumOf(s, f) - f(s[i]) + f(x)
  {
    if i > 0 {
      assert s[i := x][1..] == s[1..][i - 1 := x];
      SumOfUpdate(s[1..], i - 1, x, f);
    }
  }

  /** Removing one term takes it off the sum. */
  lemma {:induction false} SumOfRemoveAt<T>(s: seq<T>, i: nat, f: T -> real)
    requires i < |s|
    ensures SumOf(RemoveAt(s, i), f) == SumOf(s, f) - f(s[i])
  {
    var front, back := s[..i], s[i + 1..];
    assert RemoveAt(s, i) == front + back;
    assert s == front + ([s[i]] + back);
    assert ([s[i]] + back)[1..] == back;
    SumOfAppend(front, [s[i]] + back, f);
    SumOfAppend(front, back, f);
  }

  /** Two lists whose terms agree position by position have the same sum. */
  lemma {:induction false} SumOfPointwise<A, B>(a: seq<A>, f: A -> real, b: seq<B>, g: B -> real)
    requires |a| == |b|
    requires forall i :: 0 <= i < |a| ==> f(a[i]) == g(b[i])
    ensures SumOf(a, f) == SumOf(b, g)
  {
    if a != [] {
      assert forall i :: 0 <= i < |a| - 1 ==> a[1..][i] == a[i + 1] && b[1..][i] == b[i + 1];
      SumOfPointwise(a[1..], f, b[1..], g);
    }
  }

  /** Deleting a position takes one copy of its element out of the multiset. */
  lemma RemoveAtMultiset<T>(s: seq<T>, i: nat)
    requires i < |s|
    ensures multiset(RemoveAt(s, i)) == multiset(s) - multiset{s[i]}
  {
    assert s == s[..i] + [s[i]] + s[i + 1..];
    assert multiset(s) == multiset(s[..i]) + multiset{s[i]} + multiset(s[i + 1..]);
  }

  /** The sum does not depend on the order of the terms. */
  lemma {:induction false} SumOfPermutation<T>(a: seq<T>, b: seq<T>, f: T -> real)
    requires multiset(a) == multiset(b)
    ensures SumOf(a, f) == SumOf(b, f)
    decreases |a|
  {
    if a == [] {
      assert |multiset(b)| == 0;
    } else {
      assert a[0] in multiset(b);
      var k :| 0 <= k < |b| && b[k] == a[0];
      RemoveAtMultiset(b, k);
      assert a == [a[0]] + a[1..];
      assert multiset(a[1..]) == multiset(a) - multiset{a[0]};
      SumOfPermutation(a[1..], RemoveAt(b, k), f);
      SumOfRemoveAt(b, k, f);
    }
  }

  /** `SumOfNonNegative` as an implication, for use inside function bodies. */
  lemma SumOfNonNegativeIf<T>(s: seq<T>, f: T -> real)
    ensures (forall x :: x in s ==> f(x) >= 0.0) ==> SumOf(s, f) >= 0.0
  {
    if forall x :: x in s ==> f(x) >= 0.0 {
      SumOfNonNegative(s, f);
    }
  }

  /** Every term non-negative makes the sum non-negative. */
  lemma {:induction false} SumOfNonNegative<T>(s: seq<T>, f: T -> real)
    requires forall x :: x in s ==> f(x) >= 0.0
    ensures SumOf(s, f) >= 0.0
  {
    if s != [] {
      SumOfNonNegative(s[1..], f);
    }
  }

  /** Deleting non-negative terms cannot increase a sum. */
  lemma {:induction false} SumOfSubsequence<T>(a: seq<T>, b: seq<T>, f: T -> real)
    requires IsSubsequence(a, b)
    requires forall x :: x in b ==> f(x) >= 0.0
    ensures SumOf(a, f) <= SumOf(b, f)
    decreases |b|
  {
    if b != [] {
      if a != [] && a[0] == b[0] && IsSubsequence(a[1..], b[1..]) {
        SumOfSubsequence(a[1..], b[1..], f);
      } else {
        SumOfSubsequence(a, b[1..], f);
        assert b[0] in b;
      }
    }
  }
}
