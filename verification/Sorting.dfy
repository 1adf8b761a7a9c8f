/** `sorted(items, key=...)` with a two-part key: the order that Python's builtin yields. */
module Sorting {
  import opened Common

  type Key = (int, int)

  predicate AtMost(a: Key, b: Key) {
    a.0 < b.0 || (a.0 == b.0 && a.1 <= b.1)
  }

  ghost predicate SortedBy<T>(items: seq<T>, key: T -> Key) {
    forall i, j :: 0 <= i < j < |items| ==> AtMost(key(items[i]), key(items[j]))
  }

  function Insert<T>(items: seq<T>, item: T, key: T -> Key): (r: seq<T>)
    ensures multiset(r) == multiset(items) + multiset{item}
  {
    if items == [] then [item]
    else
      var init, last := items[..|items| - 1], items[|items| - 1];
      assert items == init + [last];
      if AtMost(key(last), key(item)) then items + [item] else Insert(init, item, key) + [last]
  }

  lemma {:induction false} InsertSorted<T>(items: seq<T>, item: T, key: T -> Key)
    requires SortedBy(items, key)
    ensures SortedBy(Insert(items, item, key), key)
  {
    if items != [] {
      var init, last := items[..|items| - 1], items[|items| - 1];
      if AtMost(key(last), key(item)) {
        forall i | 0 <= i < |items| ensures AtMost(key(items[i]), key(item)) {
          if i < |items| - 1 { assert AtMost(key(items[i]), key(last)); }
        }
      } else {
        InsertSorted(init, item, key);
        var r := Insert(init, item, key);
        forall i | 0 <= i < |r| ensures AtMost(key(r[i]), key(last)) {
          assert r[i] in multiset(r);
          assert r[i] == item || r[i] in init;
        }
      }
    }
  }

  function Sort<T>(items: seq<T>, key: T -> Key): (r: seq<T>)
    ensures multiset(r) == multiset(items)
  {
    if items == [] then []
    else
      assert items == items[..|items| - 1] + [items[|items| - 1]];
      Insert(Sort(items[..|items| - 1], key), items[|items| - 1], key)
  }

  lemma {:induction false} SortSorts<T>(items: seq<T>, key: T -> Key)
    ensures SortedBy(Sort(items, key), key)
  {
    if items != [] {
      SortSorts(items[..|items| - 1], key);
      InsertSorted(Sort(items[..|items| - 1], key), items[|items| - 1], key);
    }
  }

  /** Sorting what is sorted changes nothing. */
  lemma {:induction false} SortSorted<T>(items: seq<T>, key: T -> Key)
    requires SortedBy(items, key)
    ensures Sort(items, key) == items
  {
    if items != [] {
      SortSorted(items[..|items| - 1], key);
      assert items == items[..|items| - 1] + [items[|items| - 1]];
    }
  }

  lemma {:induction false} DistinctOnce<T(!new)>(s: seq<T>)
    requires Distinct(s)
    ensures forall x :: multiset(s)[x] <= 1
  {
    if s != [] {
      var init, last := s[..|s| - 1], s[|s| - 1];
      assert s == init + [last];
      DistinctOnce(init);
      forall i | 0 <= i < |init| ensures init[i] != last {
        assert s[i] != s[|s| - 1];
      }
      assert last !in init && last !in multiset(init);
    }
  }

  lemma OccursTwice<T>(s: seq<T>, i: nat, j: nat)
    requires i < j < |s| && s[i] == s[j]
    ensures multiset(s)[s[i]] >= 2
  {
    assert s == s[..j] + s[j..];
    assert s[i] in multiset(s[..j]) && s[j] in multiset(s[j..]);
  }

  lemma DistinctPermutation<T(!new)>(s: seq<T>, permuted: seq<T>)
    requires multiset(s) == multiset(permuted) && Distinct(s)
    ensures Distinct(permuted)
  {
    DistinctOnce(s);
    forall i, j | 0 <= i < j < |permuted| ensures permuted[i] != permuted[j] {
      if permuted[i] == permuted[j] { OccursTwice(permuted, i, j); }
    }
  }
}
