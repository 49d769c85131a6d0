/** Sorting by creation date, then by id, as every list of vaults on the device is sorted. */
module Ordering {

  /** Text comparison character by character. */
  predicate TextLeq(a: string, b: string) {
    a == "" || (b != "" && (a[0] < b[0] || (a[0] == b[0] && TextLeq(a[1..], b[1..]))))
  }

  datatype SortKey = SortKey(date: string, id: string)

  predicate KeyLeq(a: SortKey, b: SortKey) {
    if a.date == b.date then TextLeq(a.id, b.id) else TextLeq(a.date, b.date)
  }

  lemma {:induction false} TextOrder(a: string, b: string)
    ensures TextLeq(a, a)
    ensures TextLeq(a, b) || TextLeq(b, a)
    ensures TextLeq(a, b) && TextLeq(b, a) ==> a == b
  {
    if a != "" {
      TextOrder(a[1..], if b == "" then "" else b[1..]);
      if b != "" && a[0] == b[0] && a[1..] == b[1..] {
        assert a == [a[0]] + a[1..];
        assert b == [b[0]] + b[1..];
      }
    }
  }

  lemma {:induction false} TextTransitive(a: string, b: string, c: string)
    requires TextLeq(a, b) && TextLeq(b, c)
    ensures TextLeq(a, c)
  {
    if a != "" && a[0] == b[0] && b[0] == c[0] {
      TextTransitive(a[1..], b[1..], c[1..]);
    }
  }

  lemma KeyOrder(a: SortKey, b: SortKey)
    ensures KeyLeq(a, a)
    ensures KeyLeq(a, b) || KeyLeq(b, a)
    ensures KeyLeq(a, b) && KeyLeq(b, a) ==> a == b
  {
    TextOrder(a.date, b.date);
    TextOrder(a.id, b.id);
  }

  lemma KeyTransitive(a: SortKey, b: SortKey, c: SortKey)
    requires KeyLeq(a, b) && KeyLeq(b, c)
    ensures KeyLeq(a, c)
  {
    TextOrder(a.date, b.date);
    if a.date == b.date == c.date {
      TextTransitive(a.id, b.id, c.id);
    } else if a.date != b.date && b.date != c.date {
      TextTransitive(a.date, b.date, c.date);
      if a.date == c.date {
        TextOrder(b.date, c.date);
      }
    }
  }

  // ----- what the order means -----

  /** The texts agree before `k`, where `a` ends or has the smaller character. */
  predicate EarlierAt(a: string, b: string, k: nat) {
    && k <= |a| && k < |b|
    && (forall i :: 0 <= i < k ==> a[i] == b[i])
    && (k == |a| || a[k] < b[k])
  }

  /** Where two texts first differ, `a` ends or has the smaller character. */
  ghost predicate Earlier(a: string, b: string) {
    exists k: nat :: EarlierAt(a, b, k)
  }

  /** An earlier date, or on the same date an earlier id. */
  ghost predicate Older(aDate: string, aId: string, bDate: string, bId: string) {
    Earlier(aDate, bDate) || (aDate == bDate && Earlier(aId, bId))
  }

  lemma {:induction false} TextLeqIff(a: string, b: string)
    ensures TextLeq(a, b) <==> a == b || Earlier(a, b)
  {
    if a == "" || b == "" || a[0] != b[0] {
      assert EarlierAt(a, b, 0) <==> b != "" && (a == "" || a[0] < b[0]);
      assert forall k: nat :: EarlierAt(a, b, k) ==> k == 0;
    } else {
      TextLeqIff(a[1..], b[1..]);
      assert a == [a[0]] + a[1..] && b == [b[0]] + b[1..];
      EarlierTail(a, b);
    }
  }

  lemma EarlierTail(a: string, b: string)
    requires a != "" && b != "" && a[0] == b[0]
    ensures Earlier(a, b) <==> Earlier(a[1..], b[1..])
  {
    if k: nat :| EarlierAt(a, b, k) {
      assert EarlierAt(a[1..], b[1..], k - 1);
    }
    if k: nat :| EarlierAt(a[1..], b[1..], k) {
      assert forall i :: 1 <= i < k + 1 ==> a[i] == a[1..][i - 1] && b[i] == b[1..][i - 1];
      assert EarlierAt(a, b, k + 1);
    }
  }

  lemma NotEarlier(a: string)
    ensures !Earlier(a, a)
  {}

  /** Keys are in order exactly when the second is not older than the first: dates decide, and ids only on one date. */
  lemma KeyLeqIff(a: SortKey, b: SortKey)
    ensures KeyLeq(a, b) <==> !Older(b.date, b.id, a.date, a.id)
    ensures KeyLeq(a, b) <==> a == b || Older(a.date, a.id, b.date, b.id)
  {
    TextLeqIff(a.date, b.date);
    TextLeqIff(b.date, a.date);
    TextLeqIff(a.id, b.id);
    TextLeqIff(b.id, a.id);
    TextOrder(a.date, b.date);
    TextOrder(a.id, b.id);
    NotEarlier(a.date);
    NotEarlier(a.id);
    hide Earlier, TextLeq;
  }

  // ----- insertion sort -----

  function Insert<T>(x: T, s: seq<T>, key: T -> SortKey): seq<T> {
    if s == [] then [x]
    else if KeyLeq(key(x), key(s[0])) then [x] + s
    else [s[0]] + Insert(x, s[1..], key)
  }

  function Sort<T>(s: seq<T>, key: T -> SortKey): seq<T> {
    if s == [] then [] else Insert(s[0], Sort(s[1..], key), key)
  }

  ghost predicate Sorted<T>(s: seq<T>, key: T -> SortKey) {
    forall i, j :: 0 <= i < j < |s| ==> KeyLeq(key(s[i]), key(s[j]))
  }

  lemma {:induction false} InsertPermutes<T>(x: T, s: seq<T>, key: T -> SortKey)
    ensures multiset(Insert(x, s, key)) == multiset(s) + multiset{x}
  {
    if s != [] {
      assert s == [s[0]] + s[1..];
      InsertPermutes(x, s[1..], key);
    }
  }

  lemma {:induction false} SortPermutes<T>(s: seq<T>, key: T -> SortKey)
    ensures multiset(Sort(s, key)) == multiset(s)
  {
    if s != [] {
      SortPermutes(s[1..], key);
      InsertPermutes(s[0], Sort(s[1..], key), key);
      assert s == [s[0]] + s[1..];
    }
  }

  /** Sorting keeps the elements. */
  lemma SortMembers<T>(s: seq<T>, key: T -> SortKey)
    ensures |Sort(s, key)| == |s|
    ensures forall x :: x in Sort(s, key) <==> x in s
  {
    SortPermutes(s, key);
    assert |multiset(Sort(s, key))| == |multiset(s)|;
    assert forall x :: x in Sort(s, key) <==> x in multiset(Sort(s, key));
    assert forall x :: x in s <==> x in multiset(s);
  }

  ghost predicate Distinct<T>(s: seq<T>) {
    forall i, j :: 0 <= i < j < |s| ==> s[i] != s[j]
  }

  lemma {:induction false} InsertDistinct<T>(x: T, s: seq<T>, key: T -> SortKey)
    requires Distinct(s) && x !in s
    ensures Distinct(Insert(x, s, key))
    ensures forall y :: y in Insert(x, s, key) <==> y == x || y in s
  {
    if s != [] {
      assert s == [s[0]] + s[1..];
      InsertDistinct(x, s[1..], key);
      var rest := Insert(x, s[1..], key);
      assert forall k :: 0 <= k < |rest| ==> rest[k] in rest;
    }
  }

  /** Sorting repeats nothing that was not repeated. */
  lemma {:induction false} SortDistinct<T>(s: seq<T>, key: T -> SortKey)
    requires Distinct(s)
    ensures Distinct(Sort(s, key))
  {
    if s != [] {
      SortDistinct(s[1..], key);
      SortMembers(s[1..], key);
      InsertDistinct(s[0], Sort(s[1..], key), key);
    }
  }

  /** An element in front of a sorted list it does not come after. */
  lemma FrontSorted<T>(x: T, s: seq<T>, key: T -> SortKey)
    requires Sorted(s, key) && forall y :: y in s ==> KeyLeq(key(x), key(y))
    ensures Sorted([x] + s, key)
  {
    hide KeyLeq;
    var r := [x] + s;
    forall i, j | 0 <= i < j < |r|
      ensures KeyLeq(key(r[i]), key(r[j]))
    {
      assert r[j] == s[j - 1];
    }
  }

  lemma {:induction false} InsertSorted<T>(x: T, s: seq<T>, key: T -> SortKey)
    requires Sorted(s, key)
    ensures Sorted(Insert(x, s, key), key)
  {
    hide KeyLeq;
    if s == [] {
    } else if KeyLeq(key(x), key(s[0])) {
      forall y | y in s
        ensures KeyLeq(key(x), key(y))
      {
        if y != s[0] {
          KeyTransitive(key(x), key(s[0]), key(y));
        }
      }
      FrontSorted(x, s, key);
    } else {
      InsertSorted(x, s[1..], key);
      InsertPermutes(x, s[1..], key);
      KeyOrder(key(x), key(s[0]));
      forall y | y in Insert(x, s[1..], key)
        ensures KeyLeq(key(s[0]), key(y))
      {
        assert y in multiset(Insert(x, s[1..], key));
        assert y == x || y in s[1..];
      }
      FrontSorted(s[0], Insert(x, s[1..], key), key);
    }
  }

  lemma {:induction false} SortSorted<T>(s: seq<T>, key: T -> SortKey)
    ensures Sorted(Sort(s, key), key)
  {
    if s != [] {
      SortSorted(s[1..], key);
      InsertSorted(s[0], Sort(s[1..], key), key);
    }
  }

  /** No two elements share a key. */
  ghost predicate DistinctKeys<T(!new)>(s: multiset<T>, key: T -> SortKey) {
    forall x, y :: x in s && y in s && key(x) == key(y) ==> x == y
  }

  /** With distinct keys there is one sorted order. */
  lemma {:induction false} SortedUnique<T(!new)>(a: seq<T>, b: seq<T>, key: T -> SortKey)
    requires Sorted(a, key) && Sorted(b, key) && multiset(a) == multiset(b)
    requires DistinctKeys(multiset(a), key)
    ensures a == b
  {
    assert |multiset(a)| == |multiset(b)|;
    if a != [] {
      HeadIsLeast(a, b, key);
      HeadIsLeast(b, a, key);
      KeyOrder(key(a[0]), key(b[0]));
      assert a[0] in multiset(a) && b[0] in multiset(b);
      DropHead(a);
      DropHead(b);
      SortedUnique(a[1..], b[1..], key);
    }
  }

  lemma HeadIsLeast<T>(a: seq<T>, b: seq<T>, key: T -> SortKey)
    requires Sorted(a, key) && multiset(a) == multiset(b) && a != [] && b != []
    ensures KeyLeq(key(a[0]), key(b[0]))
  {
    assert b[0] in multiset(a);
    var i :| 0 <= i < |a| && a[i] == b[0];
    KeyOrder(key(a[0]), key(a[0]));
  }

  lemma DropHead<T>(a: seq<T>)
    requires a != []
    ensures multiset(a[1..]) == multiset(a) - multiset{a[0]}
  {
    assert a == [a[0]] + a[1..];
  }

  /** Sorting forgets the order its input came in. */
  lemma SortForgetsOrder<T(!new)>(a: seq<T>, b: seq<T>, key: T -> SortKey)
    requires multiset(a) == multiset(b) && DistinctKeys(multiset(a), key)
    ensures Sort(a, key) == Sort(b, key)
  {
    SortPermutes(a, key);
    SortPermutes(b, key);
    SortSorted(a, key);
    SortSorted(b, key);
    SortedUnique(Sort(a, key), Sort(b, key), key);
  }
}
