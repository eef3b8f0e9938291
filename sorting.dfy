/**
 * A stable sort by an integer key, largest key first: what `List.sort` does with
 * `Comparator.comparingInt(key).reversed()` (a stable merge sort in the JDK).
 * The keys are computed once from each element, since the comparator only reads state
 * that the sort does not change.
 */
module Sorting {

  datatype Keyed<T> = Keyed(key: int, item: T)

  /** Keys never increase from left to right. */
  predicate NonIncreasing<T>(s: seq<Keyed<T>>) {
    forall i, j :: 0 <= i < j < |s| ==> s[i].key >= s[j].key
  }

  /** The subsequence of the elements whose key is `k`, in their order in `s`. */
  function WithKey<T>(s: seq<Keyed<T>>, k: int): seq<Keyed<T>> {
    if s == [] then []
    else (if s[0].key == k then [s[0]] else []) + WithKey(s[1..], k)
  }

  /** Inserts `x` into a non-increasing list after every element whose key is at least x's. */
  function Insert<T>(x: Keyed<T>, s: seq<Keyed<T>>): seq<Keyed<T>> {
    if s == [] then [x]
    else if s[0].key < x.key then [x] + s
    else [s[0]] + Insert(x, s[1..])
  }

  /** Insertion sort: the reference definition of the stable descending sort. Its keys never increase. */
  function SortDescending<T>(s: seq<Keyed<T>>): (r: seq<Keyed<T>>)
    ensures NonIncreasing(r)
  {
    if s == [] then []
    else
      var sorted := SortDescending(s[..|s| - 1]);
      InsertSorted(s[|s| - 1], sorted);
      Insert(s[|s| - 1], sorted)
  }

  function Items<T>(s: seq<Keyed<T>>): (r: seq<T>)
    ensures |r| == |s| && forall i :: 0 <= i < |s| ==> r[i] == s[i].item
  {
    seq(|s|, i requires 0 <= i < |s| => s[i].item)
  }

  lemma {:induction false} WithKeyAppend<T>(a: seq<Keyed<T>>, b: seq<Keyed<T>>, k: int)
    ensures WithKey(a + b, k) == WithKey(a, k) + WithKey(b, k)
  {
    if a == [] {
      assert a + b == b;
    } else {
      assert (a + b)[1..] == a[1..] + b;
      WithKeyAppend(a[1..], b, k);
    }
  }

  lemma {:induction false} WithKeyNone<T>(s: seq<Keyed<T>>, k: int)
    requires forall i :: 0 <= i < |s| ==> s[i].key < k
    ensures WithKey(s, k) == []
  {
    if s != [] {
      WithKeyNone(s[1..], k);
    }
  }

  lemma {:induction false} InsertPermutes<T>(x: Keyed<T>, s: seq<Keyed<T>>)
    ensures multiset(Insert(x, s)) == multiset(s) + multiset{x}
  {
    if s != [] && s[0].key >= x.key {
      InsertPermutes(x, s[1..]);
      assert s == [s[0]] + s[1..];
    }
  }

  lemma {:induction false} InsertSorted<T>(x: Keyed<T>, s: seq<Keyed<T>>)
    requires NonIncreasing(s)
    ensures NonIncreasing(Insert(x, s))
  {
    if s != [] && s[0].key >= x.key {
      var t := s[1..];
      InsertSorted(x, t);
      var r := Insert(x, t);
      assert forall i :: 0 <= i < |r| ==> r[i].key <= s[0].key by {
        InsertBelow(x, t, s[0].key);
      }
    }
  }

  /** Every key of `Insert(x, s)` is at most `hi` when x's and all keys of `s` are. */
  lemma {:induction false} InsertBelow<T>(x: Keyed<T>, s: seq<Keyed<T>>, hi: int)
    requires x.key <= hi && forall i :: 0 <= i < |s| ==> s[i].key <= hi
    ensures forall i :: 0 <= i < |Insert(x, s)| ==> Insert(x, s)[i].key <= hi
  {
    if s != [] && s[0].key >= x.key {
      InsertBelow(x, s[1..], hi);
    }
  }

  /** Inserting `x` puts it after every element with the same key. */
  lemma {:induction false} InsertWithKey<T>(x: Keyed<T>, s: seq<Keyed<T>>, k: int)
    requires NonIncreasing(s)
    ensures WithKey(Insert(x, s), k) == WithKey(s, k) + (if x.key == k then [x] else [])
  {
    if s == [] {
    } else if s[0].key < x.key {
      var r := [x] + s;
      assert r[1..] == s;
      assert WithKey(r, k) == (if x.key == k then [x] else []) + WithKey(s, k);
      if x.key == k {
        WithKeyNone(s, k);
      }
    } else {
      var t := s[1..];
      assert NonIncreasing(t) by {
        forall i, j | 0 <= i < j < |t| ensures t[i].key >= t[j].key {
          assert t[i] == s[i + 1] && t[j] == s[j + 1];
        }
      }
      InsertWithKey(x, t, k);
      var r := [s[0]] + Insert(x, t);
      assert r[1..] == Insert(x, t);
      assert WithKey(r, k) == (if s[0].key == k then [s[0]] else []) + WithKey(Insert(x, t), k);
      assert WithKey(s, k) == (if s[0].key == k then [s[0]] else []) + WithKey(t, k);
    }
  }

  /** The sorted list is a permutation of the input. */
  lemma {:induction false} SortDescendingPermutes<T>(s: seq<Keyed<T>>)
    ensures multiset(SortDescending(s)) == multiset(s)
  {
    if s != [] {
      var init, last := s[..|s| - 1], s[|s| - 1];
      assert s == init + [last];
      calc {
        multiset(SortDescending(s));
        multiset(Insert(last, SortDescending(init)));
        { InsertPermutes(last, SortDescending(init)); }
        multiset(SortDescending(init)) + multiset{last};
        { SortDescendingPermutes(init); }
        multiset(init) + multiset{last};
        multiset(s);
      }
    }
  }

  /** The sort is stable: elements with equal keys keep their input order. */
  lemma {:induction false} SortDescendingStable<T>(s: seq<Keyed<T>>, k: int)
    ensures WithKey(SortDescending(s), k) == WithKey(s, k)
  {
    if s != [] {
      var init, last := s[..|s| - 1], s[|s| - 1];
      SortDescendingStable(init, k);
      InsertWithKey(last, SortDescending(init), k);
      WithKeyAppend(init, [last], k);
      assert s == init + [last];
    }
  }

  /** Every element of the sorted list is an element of the input. */
  lemma SortDescendingMembers<T>(s: seq<Keyed<T>>)
    ensures forall x :: x in SortDescending(s) ==> x in s
  {
    SortDescendingPermutes(s);
    forall x | x in SortDescending(s) ensures x in s {
      assert x in multiset(SortDescending(s));
    }
  }

  lemma {:induction false} InsertItems<T>(x: Keyed<T>, s: seq<Keyed<T>>)
    ensures multiset(Items(Insert(x, s))) == multiset(Items(s)) + multiset{x.item}
  {
    if s == [] {
    } else if s[0].key < x.key {
      assert Items([x] + s) == [x.item] + Items(s);
    } else {
      InsertItems(x, s[1..]);
      assert Items(Insert(x, s)) == [s[0].item] + Items(Insert(x, s[1..]));
      assert Items(s) == [s[0].item] + Items(s[1..]);
    }
  }

  /** The items of the sorted list are a permutation of the input's items. */
  lemma {:induction false} SortDescendingPermutesItems<T>(s: seq<Keyed<T>>)
    ensures multiset(Items(SortDescending(s))) == multiset(Items(s))
  {
    if s != [] {
      var init, last := s[..|s| - 1], s[|s| - 1];
      SortDescendingPermutesItems(init);
      InsertItems(last, SortDescending(init));
      assert Items(s) == Items(init) + [last.item];
    }
  }
}
