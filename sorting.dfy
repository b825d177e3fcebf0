/** The stable sort both `transcribeChunks` (chunks by `index`) and
    `cleanupOldAudios` (recordings by `timestamp`) apply to an array in place.
    `Array.prototype.sort` is stable, so its result is the one insertion sort
    produces; `InsertionSort` is that result as a function, and `SortByKey`
    computes it in place. */
module Sorting {

  predicate SortedBy<T>(s: seq<T>, key: T -> int) {
    forall i, j :: 0 <= i < j < |s| ==> key(s[i]) <= key(s[j])
  }

  /** Places `x` after every trailing element whose key is larger, as the
      shifting step of insertion sort does. */
  function Insert<T>(s: seq<T>, x: T, key: T -> int): (r: seq<T>)
    ensures |r| == |s| + 1
  {
    if s == [] || key(s[|s| - 1]) <= key(x) then s + [x]
    else
      var init := s[..|s| - 1];
      assert s == init + [s[|s| - 1]];
      Insert(init, x, key) + [s[|s| - 1]]
  }

  function InsertionSort<T>(s: seq<T>, key: T -> int): (r: seq<T>)
    ensures |r| == |s|
  {
    if s == [] then [] else Insert(InsertionSort(s[..|s| - 1], key), s[|s| - 1], key)
  }

  /** Where `Insert` puts `x`: after a prefix whose last key is no larger,
      before a suffix of strictly larger keys. */
  lemma {:induction false} InsertSplit<T>(s: seq<T>, x: T, key: T -> int) returns (j: nat)
    ensures j <= |s| && Insert(s, x, key) == s[..j] + [x] + s[j..]
    ensures j == 0 || key(s[j - 1]) <= key(x)
    ensures forall k :: j <= k < |s| ==> key(s[k]) > key(x)
  {
    if s == [] || key(s[|s| - 1]) <= key(x) {
      j := |s|;
      assert s[..j] == s && s[j..] == [];
    } else {
      var init := s[..|s| - 1];
      var last := s[|s| - 1];
      assert Insert(s, x, key) == Insert(init, x, key) + [last];
      j := InsertSplit(init, x, key);
      SpliceSnoc(init, last, x, j);
      forall k | j <= k < |s| ensures key(s[k]) > key(x) {
        if k < |init| {
          assert s[k] == init[k];
        }
      }
      if j > 0 {
        assert s[j - 1] == init[j - 1];
      }
    }
  }

  lemma SpliceSnoc<T>(init: seq<T>, last: T, x: T, j: nat)
    requires j <= |init|
    ensures (init + [last])[..j] + [x] + (init + [last])[j..] == init[..j] + [x] + init[j..] + [last]
  {
    var s := init + [last];
    assert s[..j] == init[..j];
    assert s[j..] == init[j..] + [last];
  }

  lemma InsertKeepsSorted<T>(s: seq<T>, x: T, key: T -> int)
    requires SortedBy(s, key)
    ensures SortedBy(Insert(s, x, key), key)
  {
    var j := InsertSplit(s, x, key);
    var r := Insert(s, x, key);
    forall i, l | 0 <= i < l < |r| ensures key(r[i]) <= key(r[l]) {
      if i < j && l > j {
        assert r[i] == s[i] && r[l] == s[l - 1];
      } else if i < j && l == j {
        assert r[i] == s[i] && key(s[i]) <= key(s[j - 1]);
      } else if i == j {
        assert r[l] == s[l - 1];
      } else if l < j {
        assert r[i] == s[i] && r[l] == s[l];
      } else {
        assert r[i] == s[i - 1] && r[l] == s[l - 1];
      }
    }
  }

  /** The sort's output is ordered by key. */
  lemma {:induction false} InsertionSortSorted<T>(s: seq<T>, key: T -> int)
    ensures SortedBy(InsertionSort(s, key), key)
  {
    if s != [] {
      InsertionSortSorted(s[..|s| - 1], key);
      InsertKeepsSorted(InsertionSort(s[..|s| - 1], key), s[|s| - 1], key);
    }
  }

  lemma InsertPermutes<T>(s: seq<T>, x: T, key: T -> int)
    ensures multiset(Insert(s, x, key)) == multiset(s) + multiset{x}
  {
    var j := InsertSplit(s, x, key);
    assert s == s[..j] + s[j..];
  }

  /** The sort's output holds exactly the input's elements. */
  lemma {:induction false} InsertionSortPermutes<T>(s: seq<T>, key: T -> int)
    ensures multiset(InsertionSort(s, key)) == multiset(s)
  {
    if s != [] {
      InsertionSortPermutes(s[..|s| - 1], key);
      InsertPermutes(InsertionSort(s[..|s| - 1], key), s[|s| - 1], key);
      assert s == s[..|s| - 1] + [s[|s| - 1]];
    }
  }

  /** When `x` belongs at position `j` (the key before it no larger, every
      key from `j` on larger), inserting is splicing at `j`. */
  lemma InsertAt<T>(s: seq<T>, x: T, key: T -> int, j: nat)
    requires j <= |s|
    requires j == 0 || key(s[j - 1]) <= key(x)
    requires forall k :: j <= k < |s| ==> key(s[k]) > key(x)
    ensures Insert(s, x, key) == s[..j] + [x] + s[j..]
  {
    var j' := InsertSplit(s, x, key);
  }

  /** Sorts `a` in place by `key`, stably, as insertion sort does. */
  method SortByKey<T>(a: array<T>, key: T -> int)
    modifies a
    ensures a[..] == InsertionSort(old(a[..]), key)
  {
    ghost var input := a[..];
    var i := 0;
    while i < a.Length
      invariant 0 <= i <= a.Length
      invariant a[..i] == InsertionSort(input[..i], key)
      invariant a[i..] == input[i..]
    {
      assert a[i] == input[i];
      ShiftInto(a, i, key);
      assert input[..i + 1][..i] == input[..i];
      assert input[i..][1..] == input[i + 1..];
      i := i + 1;
    }
    assert input[..a.Length] == input;
  }

  /** One step of insertion sort: moves `a[i]` left past the larger keys of
      the prefix `a[..i]`. */
  method ShiftInto<T>(a: array<T>, i: nat, key: T -> int)
    requires i < a.Length
    modifies a
    ensures a[..i + 1] == Insert(old(a[..i]), old(a[i]), key)
    ensures a[i + 1..] == old(a[i + 1..])
  {
    ghost var done := a[..i];
    var x := a[i];
    var j := i;
    while j > 0 && key(a[j - 1]) > key(x)
      invariant 0 <= j <= i
      invariant forall k :: 0 <= k < j ==> a[k] == done[k]
      invariant forall k :: j < k <= i ==> a[k] == done[k - 1]
      invariant forall k :: i < k < a.Length ==> a[k] == old(a[k])
      invariant forall k :: j <= k < i ==> key(done[k]) > key(x)
    {
      a[j] := a[j - 1];
      j := j - 1;
    }
    a[j] := x;
    InsertAt(done, x, key, j);
    ghost var r := done[..j] + [x] + done[j..];
    forall k | 0 <= k <= i ensures a[k] == r[k] {
      if k < j {
        assert r[k] == done[k];
      } else if k > j {
        assert r[k] == done[k - 1];
      }
    }
    assert a[..i + 1] == r;
  }

  /** Two orderings of the same elements, both sorted by a key no two elements
      share, are the same sequence: with distinct keys the sorted order does
      not depend on the order the elements arrived in. */
  lemma {:induction false} SortedPermutationUnique<T>(s: seq<T>, t: seq<T>, key: T -> int)
    requires multiset(s) == multiset(t)
    requires SortedBy(s, key) && SortedBy(t, key)
    requires forall i, j :: 0 <= i < j < |s| ==> key(s[i]) != key(s[j])
    ensures s == t
  {
    assert |s| == |multiset(s)| == |t|;
    if s != [] {
      SameHead(s, t, key);
      TailMultiset(s);
      TailMultiset(t);
      SortedPermutationUnique(s[1..], t[1..], key);
    }
  }

  lemma SameHead<T>(s: seq<T>, t: seq<T>, key: T -> int)
    requires |s| > 0 && multiset(s) == multiset(t)
    requires SortedBy(s, key) && SortedBy(t, key)
    requires forall i, j :: 0 <= i < j < |s| ==> key(s[i]) != key(s[j])
    ensures |t| > 0 && s[0] == t[0]
  {
    assert s[0] in multiset(t);
    var k :| 0 <= k < |t| && t[k] == s[0];
    assert t[0] in multiset(s);
    var m :| 0 <= m < |s| && s[m] == t[0];
    assert key(s[0]) <= key(s[m]);
    assert key(t[0]) <= key(t[k]);
  }

  lemma TailMultiset<T>(s: seq<T>)
    requires |s| > 0
    ensures multiset(s[1..]) == multiset(s) - multiset{s[0]}
  {
    assert s == [s[0]] + s[1..];
  }

  /** Inserting an element with a key smaller than every other puts it first. */
  lemma {:induction false} InsertSmallest<T>(s: seq<T>, x: T, key: T -> int)
    requires forall k :: 0 <= k < |s| ==> key(s[k]) > key(x)
    ensures Insert(s, x, key)[0] == x
  {
    var j := InsertSplit(s, x, key);
  }

  /** Inserting an element no smaller than the first keeps the first. */
  lemma InsertKeepsHead<T>(s: seq<T>, x: T, key: T -> int)
    requires |s| > 0 && key(s[0]) <= key(x)
    ensures Insert(s, x, key)[0] == s[0]
  {
    var j := InsertSplit(s, x, key);
  }

  /** The first element of the sorted output is the earliest element of the
      input that has the smallest key (stability at the front). */
  lemma {:induction false} InsertionSortHead<T>(s: seq<T>, key: T -> int, p: nat)
    requires p < |s|
    requires forall k :: 0 <= k < |s| ==> key(s[p]) <= key(s[k])
    requires forall k :: 0 <= k < p ==> key(s[k]) > key(s[p])
    ensures InsertionSort(s, key)[0] == s[p]
  {
    var init := s[..|s| - 1];
    var x := s[|s| - 1];
    var sorted := InsertionSort(init, key);
    if p == |s| - 1 {
      InsertionSortPermutes(init, key);
      forall k | 0 <= k < |sorted| ensures key(sorted[k]) > key(x) {
        assert sorted[k] in multiset(init);
        var m :| 0 <= m < |init| && init[m] == sorted[k];
        assert init[m] == s[m];
      }
      InsertSmallest(sorted, x, key);
    } else {
      forall k | 0 <= k < |init| ensures key(init[p]) <= key(init[k]) {
        assert init[k] == s[k];
      }
      forall k | 0 <= k < p ensures key(init[k]) > key(init[p]) {
        assert init[k] == s[k];
      }
      InsertionSortHead(init, key, p);
      InsertKeepsHead(sorted, x, key);
    }
  }
}
