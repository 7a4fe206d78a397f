/**
 A stable ascending sort by an integer key, as `Array.prototype.sort` performs it with a
 subtracting comparator. `SortUnique` shows that the result is fixed by the two facts the
 language promises of it (ascending, and equal keys in their old order), so nothing here
 depends on how `Sort` computes it.
*/
module StableSort {

  lemma SplitLast<T>(s: seq<T>)
    requires s != []
    ensures s == s[..|s| - 1] + [s[|s| - 1]]
  {
  }

  lemma Associates<T>(a: seq<T>, b: seq<T>, c: seq<T>)
    ensures a + (b + c) == a + b + c
  {
  }

  lemma SplitFirst<T>(s: seq<T>)
    requires s != []
    ensures s == [s[0]] + s[1..]
  {
  }

  ghost predicate Sorted<T(!new)>(key: T -> int, s: seq<T>) {
    forall i, j :: 0 <= i < j < |s| ==> key(s[i]) <= key(s[j])
  }

  /** Inserts `x` behind every leading element whose key is not larger. */
  function Insert<T>(key: T -> int, s: seq<T>, x: T): (r: seq<T>)
    ensures |r| == |s| + 1
  {
    if s == [] || key(x) < key(s[0]) then [x] + s else [s[0]] + Insert(key, s[1..], x)
  }

  function Sort<T>(key: T -> int, s: seq<T>): (r: seq<T>)
    ensures |r| == |s|
  {
    if s == [] then [] else Insert(key, Sort(key, s[..|s| - 1]), s[|s| - 1])
  }

  lemma SortAppend<T(!new)>(key: T -> int, s: seq<T>, x: T)
    ensures Sort(key, s + [x]) == Insert(key, Sort(key, s), x)
  {
    assert (s + [x])[..|s|] == s;
  }

  lemma SortedCons<T(!new)>(key: T -> int, x: T, s: seq<T>)
    ensures Sorted(key, [x] + s) <==> Sorted(key, s) && forall i :: 0 <= i < |s| ==> key(x) <= key(s[i])
  {
    var t := [x] + s;
    if Sorted(key, t) {
      forall i, j | 0 <= i < j < |s| ensures key(s[i]) <= key(s[j]) {
        assert t[i + 1] == s[i] && t[j + 1] == s[j];
      }
      forall i | 0 <= i < |s| ensures key(x) <= key(s[i]) {
        assert t[0] == x && t[i + 1] == s[i];
      }
    }
  }

  lemma SortedTail<T(!new)>(key: T -> int, s: seq<T>)
    requires Sorted(key, s) && s != []
    ensures Sorted(key, s[1..]) && forall i :: 0 <= i < |s| ==> key(s[0]) <= key(s[i])
  {
    SplitFirst(s);
    SortedCons(key, s[0], s[1..]);
  }

  lemma {:induction false} InsertMembers<T(!new)>(key: T -> int, s: seq<T>, x: T)
    ensures multiset(Insert(key, s, x)) == multiset(s) + multiset{x}
  {
    if s != [] && key(s[0]) <= key(x) {
      InsertMembers(key, s[1..], x);
      SplitFirst(s);
    }
  }

  lemma {:induction false} InsertSorted<T(!new)>(key: T -> int, s: seq<T>, x: T)
    requires Sorted(key, s)
    ensures Sorted(key, Insert(key, s, x))
  {
    if s == [] || key(x) < key(s[0]) {
      if s != [] { SortedTail(key, s); }
      SortedCons(key, x, s);
    } else {
      var rest := Insert(key, s[1..], x);
      SortedTail(key, s);
      InsertSorted(key, s[1..], x);
      InsertMembers(key, s[1..], x);
      forall i | 0 <= i < |rest| ensures key(s[0]) <= key(rest[i]) {
        assert rest[i] in multiset(rest);
      }
      SortedCons(key, s[0], rest);
    }
  }

  lemma {:induction false} SortSorted<T(!new)>(key: T -> int, s: seq<T>)
    ensures Sorted(key, Sort(key, s))
  {
    if s != [] {
      SortSorted(key, s[..|s| - 1]);
      InsertSorted(key, Sort(key, s[..|s| - 1]), s[|s| - 1]);
    }
  }

  lemma {:induction false} SortPermutes<T(!new)>(key: T -> int, s: seq<T>)
    ensures multiset(Sort(key, s)) == multiset(s)
  {
    if s != [] {
      SortPermutes(key, s[..|s| - 1]);
      InsertMembers(key, Sort(key, s[..|s| - 1]), s[|s| - 1]);
      SplitLast(s);
    }
  }

  /** The elements with key `k`, in order. */
  function WithKey<T>(key: T -> int, k: int, s: seq<T>): seq<T> {
    if s == [] then [] else if key(s[0]) == k then [s[0]] + WithKey(key, k, s[1..]) else WithKey(key, k, s[1..])
  }

  lemma {:induction false} WithKeySnoc<T(!new)>(key: T -> int, k: int, s: seq<T>, x: T)
    ensures WithKey(key, k, s + [x]) == WithKey(key, k, s) + if key(x) == k then [x] else []
  {
    if s == [] {
      assert [] + [x] == [x];
    } else {
      assert (s + [x])[1..] == s[1..] + [x];
      WithKeySnoc(key, k, s[1..], x);
    }
  }

  lemma {:induction false} WithKeyEmpty<T(!new)>(key: T -> int, k: int, s: seq<T>)
    ensures WithKey(key, k, s) == [] <==> forall i :: 0 <= i < |s| ==> key(s[i]) != k
  {
    if s != [] {
      WithKeyEmpty(key, k, s[1..]);
      assert forall i :: 1 <= i < |s| ==> s[i] == s[1..][i - 1];
    }
  }

  lemma {:induction false} WithKeyInsert<T(!new)>(key: T -> int, k: int, s: seq<T>, x: T)
    requires Sorted(key, s)
    ensures WithKey(key, k, Insert(key, s, x)) == WithKey(key, k, s) + if key(x) == k then [x] else []
  {
    if s == [] || key(x) < key(s[0]) {
      assert ([x] + s)[1..] == s;
      if key(x) == k {
        if s != [] { SortedTail(key, s); }
        WithKeyEmpty(key, k, s);
      }
    } else {
      SortedTail(key, s);
      WithKeyInsert(key, k, s[1..], x);
      assert Insert(key, s, x)[1..] == Insert(key, s[1..], x);
    }
  }

  /** Equal keys keep their order. */
  lemma {:induction false} SortStable<T(!new)>(key: T -> int, k: int, s: seq<T>)
    ensures WithKey(key, k, Sort(key, s)) == WithKey(key, k, s)
  {
    if s != [] {
      var init, x := s[..|s| - 1], s[|s| - 1];
      SortStable(key, k, init);
      SortSorted(key, init);
      WithKeyInsert(key, k, Sort(key, init), x);
      WithKeySnoc(key, k, init, x);
      SplitLast(s);
    }
  }

  /** `t` lists the elements of each key in the order in which `s` does. */
  ghost predicate SameOrder<T(!new)>(key: T -> int, s: seq<T>, t: seq<T>) {
    forall k :: WithKey(key, k, s) == WithKey(key, k, t)
  }

  lemma SameOrderHead<T(!new)>(key: T -> int, s: seq<T>, t: seq<T>)
    requires Sorted(key, s) && Sorted(key, t) && SameOrder(key, s, t) && s != []
    ensures t != [] && s[0] == t[0]
  {
    var k := key(s[0]);
    assert WithKey(key, k, s) == WithKey(key, k, t);
    assert WithKey(key, k, s)[0] == s[0];
    WithKeyEmpty(key, k, t);
    SortedTail(key, t);
    var m := key(t[0]);
    assert WithKey(key, m, s) == WithKey(key, m, t);
    WithKeyEmpty(key, m, s);
    SortedTail(key, s);
    assert m == k;
  }

  /** An ascending, stable arrangement is unique. */
  lemma {:induction false} SortedUnique<T(!new)>(key: T -> int, s: seq<T>, t: seq<T>)
    requires Sorted(key, s) && Sorted(key, t)
    requires SameOrder(key, s, t)
    ensures s == t
  {
    if s == [] && t != [] {
      SameOrderHead(key, t, s);
    } else if s != [] {
      SameOrderHead(key, s, t);
      SortedTail(key, s);
      SortedTail(key, t);
      forall k ensures WithKey(key, k, s[1..]) == WithKey(key, k, t[1..]) {
        var n := if key(s[0]) == k then 1 else 0;
        assert WithKey(key, k, s)[n..] == WithKey(key, k, s[1..]);
        assert WithKey(key, k, t)[n..] == WithKey(key, k, t[1..]);
      }
      SortedUnique(key, s[1..], t[1..]);
    }
  }

  /** `t` is `Sort(s)` exactly when it is ascending and keeps, for every key, the order of `s`. */
  lemma SortUnique<T(!new)>(key: T -> int, s: seq<T>, t: seq<T>)
    ensures t == Sort(key, s) <==> Sorted(key, t) && SameOrder(key, s, t)
  {
    SortSorted(key, s);
    forall k ensures WithKey(key, k, s) == WithKey(key, k, Sort(key, s)) {
      SortStable(key, k, s);
    }
    if Sorted(key, t) && SameOrder(key, s, t) {
      forall k ensures WithKey(key, k, t) == WithKey(key, k, Sort(key, s)) {
        assert WithKey(key, k, s) == WithKey(key, k, t);
      }
      SortedUnique(key, t, Sort(key, s));
    }
  }

  lemma SortOfSorted<T(!new)>(key: T -> int, s: seq<T>)
    requires Sorted(key, s)
    ensures Sort(key, s) == s
  {
    SortUnique(key, s, s);
  }

  /** Where `Insert` puts `x`: behind all elements with a key not larger. */
  lemma {:induction false} InsertShape<T(!new)>(key: T -> int, s: seq<T>, x: T) returns (k: nat)
    requires Sorted(key, s)
    ensures k <= |s| && Insert(key, s, x) == s[..k] + ([x] + s[k..])
    ensures forall i :: 0 <= i < |s| ==> (i < k <==> key(s[i]) <= key(x))
  {
    if s == [] || key(x) < key(s[0]) {
      k := 0;
      if s != [] { SortedTail(key, s); }
    } else {
      SortedTail(key, s);
      var k' := InsertShape(key, s[1..], x);
      k := k' + 1;
      assert s[1..][..k'] == s[1..k] && s[1..][k'..] == s[k..];
      forall i | 1 <= i < |s| ensures i < k <==> key(s[i]) <= key(x) {
        assert s[i] == s[1..][i - 1];
      }
    }
  }

  // ----- removing elements commutes with sorting

  function Filter<T>(keep: T -> bool, s: seq<T>): seq<T> {
    if s == [] then [] else if keep(s[0]) then [s[0]] + Filter(keep, s[1..]) else Filter(keep, s[1..])
  }

  lemma {:induction false} FilterMembers<T(!new)>(keep: T -> bool, s: seq<T>)
    ensures forall x :: x in Filter(keep, s) <==> x in s && keep(x)
    ensures |Filter(keep, s)| <= |s|
  {
    if s != [] {
      FilterMembers(keep, s[1..]);
      SplitFirst(s);
    }
  }

  lemma {:induction false} FilterConcat<T(!new)>(keep: T -> bool, a: seq<T>, b: seq<T>)
    ensures Filter(keep, a + b) == Filter(keep, a) + Filter(keep, b)
  {
    if a == [] {
      assert a + b == b;
    } else {
      assert (a + b)[1..] == a[1..] + b;
      FilterConcat(keep, a[1..], b);
    }
  }

  lemma {:induction false} FilterAll<T(!new)>(keep: T -> bool, s: seq<T>)
    requires forall i :: 0 <= i < |s| ==> keep(s[i])
    ensures Filter(keep, s) == s
  {
    if s != [] {
      FilterAll(keep, s[1..]);
    }
  }

  lemma {:induction false} FilterInsert<T(!new)>(key: T -> int, keep: T -> bool, s: seq<T>, x: T)
    requires Sorted(key, s)
    ensures Filter(keep, Insert(key, s, x)) == if keep(x) then Insert(key, Filter(keep, s), x) else Filter(keep, s)
  {
    if s == [] || key(x) < key(s[0]) {
      assert ([x] + s)[1..] == s;
      var rest := Filter(keep, s);
      if rest != [] {
        SortedTail(key, s);
        FilterMembers(keep, s);
        assert rest[0] in s;
      }
    } else {
      SortedTail(key, s);
      FilterInsert(key, keep, s[1..], x);
      assert Insert(key, s, x)[1..] == Insert(key, s[1..], x);
      if keep(s[0]) {
        assert Filter(keep, s)[1..] == Filter(keep, s[1..]);
      }
    }
  }

  lemma FilterSnoc<T(!new)>(keep: T -> bool, s: seq<T>, x: T)
    ensures Filter(keep, s + [x]) == if keep(x) then Filter(keep, s) + [x] else Filter(keep, s)
  {
    FilterConcat(keep, s, [x]);
    assert [x][1..] == [];
  }

  lemma {:induction false} FilterSort<T(!new)>(key: T -> int, keep: T -> bool, s: seq<T>)
    ensures Filter(keep, Sort(key, s)) == Sort(key, Filter(keep, s))
  {
    if s != [] {
      var init, x := s[..|s| - 1], s[|s| - 1];
      SplitLast(s);
      FilterSort(key, keep, init);
      SortSorted(key, init);
      FilterInsert(key, keep, Sort(key, init), x);
      FilterSnoc(keep, init, x);
      SortAppend(key, Filter(keep, init), x);
    }
  }

  /** The index of the first element with the smallest key. */
  function EarliestIndex<T>(key: T -> int, s: seq<T>): (k: nat)
    requires s != []
    ensures k < |s|
    ensures forall i :: 0 <= i < |s| ==> key(s[k]) <= key(s[i])
    ensures forall i :: 0 <= i < k ==> key(s[k]) < key(s[i])
  {
    if |s| == 1 then 0
    else
      var k := EarliestIndex(key, s[..|s| - 1]);
      if key(s[|s| - 1]) < key(s[k]) then |s| - 1 else k
  }

  function RemoveAt<T>(s: seq<T>, k: nat): seq<T>
    requires k < |s|
  {
    s[..k] + s[k + 1..]
  }

  lemma RemoveCounts<T>(s: seq<T>, k: nat)
    requires k < |s|
    ensures multiset(s) == multiset(RemoveAt(s, k)) + multiset{s[k]}
  {
    assert s == s[..k] + [s[k]] + s[k + 1..];
  }

  lemma RemoveEqual<T>(s: seq<T>, j: nat, t: seq<T>, k: nat)
    requires j < |s| && k < |t| && s[j] == t[k] && multiset(s) == multiset(t)
    ensures multiset(RemoveAt(s, j)) == multiset(RemoveAt(t, k))
  {
    RemoveCounts(s, j);
    RemoveCounts(t, k);
    var a, b := multiset(RemoveAt(s, j)), multiset(RemoveAt(t, k));
    assert a + multiset{s[j]} - multiset{s[j]} == a;
    assert b + multiset{s[j]} - multiset{s[j]} == b;
  }

  lemma RemoveSnoc<T>(s: seq<T>, x: T, k: nat)
    requires k <= |s|
    ensures RemoveAt(s + [x], k) == if k < |s| then RemoveAt(s, k) + [x] else s
  {
  }

  lemma EarliestSnoc<T(!new)>(key: T -> int, s: seq<T>, x: T)
    requires s != []
    ensures var k := EarliestIndex(key, s);
            EarliestIndex(key, s + [x]) == if key(x) < key(s[k]) then |s| else k
  {
    var t := s + [x];
    assert t[..|t| - 1] == s;
  }

  lemma InsertHeadTail<T(!new)>(key: T -> int, t: seq<T>, x: T)
    requires t != []
    ensures var r := Insert(key, t, x);
            if key(x) < key(t[0]) then r[0] == x && r[1..] == t else r[0] == t[0] && r[1..] == Insert(key, t[1..], x)
  {
  }

  lemma TakesEarliestSnoc<T(!new)>(key: T -> int, s: seq<T>, x: T)
    requires s != []
    requires Sort(key, s)[0] == s[EarliestIndex(key, s)]
    requires Sort(key, s)[1..] == Sort(key, RemoveAt(s, EarliestIndex(key, s)))
    ensures var k := EarliestIndex(key, s + [x]);
            Sort(key, s + [x])[0] == (s + [x])[k] && Sort(key, s + [x])[1..] == Sort(key, RemoveAt(s + [x], k))
  {
    EarliestSnoc(key, s, x);
    RemoveSnoc(s, x, EarliestIndex(key, s + [x]));
    SortAppend(key, s, x);
    InsertHeadTail(key, Sort(key, s), x);
    SortAppend(key, RemoveAt(s, EarliestIndex(key, s)), x);
  }

  /** The head of the sorted sequence is the oldest element with the smallest key. */
  lemma {:induction false} SortTakesEarliest<T(!new)>(key: T -> int, s: seq<T>)
    requires s != []
    ensures Sort(key, s)[0] == s[EarliestIndex(key, s)]
    ensures Sort(key, s)[1..] == Sort(key, RemoveAt(s, EarliestIndex(key, s)))
  {
    if |s| > 1 {
      SortTakesEarliest(key, s[..|s| - 1]);
      TakesEarliestSnoc(key, s[..|s| - 1], s[|s| - 1]);
      SplitLast(s);
    }
  }

  function Map<A, B>(f: A -> B, s: seq<A>): (r: seq<B>)
    ensures |r| == |s|
    ensures forall i :: 0 <= i < |s| ==> r[i] == f(s[i])
  {
    if s == [] then [] else [f(s[0])] + Map(f, s[1..])
  }

  lemma {:induction false} InsertMap<A(!new), B(!new)>(ka: A -> int, kb: B -> int, f: A -> B, s: seq<A>, x: A)
    requires forall a :: ka(a) == kb(f(a))
    ensures Map(f, Insert(ka, s, x)) == Insert(kb, Map(f, s), f(x))
  {
    if s != [] && ka(s[0]) <= ka(x) {
      InsertMap(ka, kb, f, s[1..], x);
      assert Map(f, s)[1..] == Map(f, s[1..]);
    } else {
      assert Map(f, [x] + s) == [f(x)] + Map(f, s);
    }
  }

  /** Sorting records by a key of their image sorts the images. */
  lemma {:induction false} SortMap<A(!new), B(!new)>(ka: A -> int, kb: B -> int, f: A -> B, s: seq<A>)
    requires forall a :: ka(a) == kb(f(a))
    ensures Map(f, Sort(ka, s)) == Sort(kb, Map(f, s))
  {
    if s != [] {
      SortMap(ka, kb, f, s[..|s| - 1]);
      InsertMap(ka, kb, f, Sort(ka, s[..|s| - 1]), s[|s| - 1]);
      assert Map(f, s)[..|s| - 1] == Map(f, s[..|s| - 1]);
    }
  }
}
