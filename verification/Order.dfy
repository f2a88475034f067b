/** Total orders, sorted enumerations of finite sets, and stable sorting by an integer key. */
module Order {

  // ----- integers -----

  lemma PickMember<T>(s: set<T>) returns (x: T)
    requires s != {}
    ensures x in s
  {
    x :| x in s;
  }

  lemma {:induction false} FindLeastInt(s: set<int>) returns (least: int)
    requires s != {}
    ensures least in s && forall y :: y in s ==> least <= y
    decreases |s|
  {
    var x := PickMember(s);
    if s == {x} {
      least := x;
    } else {
      var m := FindLeastInt(s - {x});
      least := if x <= m then x else m;
      assert forall y :: y in s ==> y == x || y in s - {x};
    }
  }

  lemma LeastIntExists(s: set<int>)
    requires s != {}
    ensures exists x :: x in s && forall y :: y in s ==> x <= y
  {
    var least := FindLeastInt(s);
  }

  ghost function LeastInt(s: set<int>): (x: int)
    requires s != {}
    ensures x in s && forall y :: y in s ==> x <= y
  {
    LeastIntExists(s);
    var x :| x in s && forall y :: y in s ==> x <= y;
    x
  }

  // ----- strings -----

  /** Lexicographic order on strings: the order of UTF-8 bytes, which is the order of code points. */
  predicate LexLe(a: string, b: string) {
    a == [] || (b != [] && (a[0] < b[0] || (a[0] == b[0] && LexLe(a[1..], b[1..]))))
  }

  predicate LexLess(a: string, b: string) { LexLe(a, b) && a != b }

  lemma LexTotal(a: string, b: string)
    ensures LexLe(a, b) || LexLe(b, a)
  {}

  lemma LexAntisymmetric(a: string, b: string)
    requires LexLe(a, b) && LexLe(b, a)
    ensures a == b
  {
    if a != [] {
      LexAntisymmetric(a[1..], b[1..]);
      assert a == [a[0]] + a[1..] && b == [b[0]] + b[1..];
    }
  }

  lemma LexTransitive(a: string, b: string, c: string)
    requires LexLe(a, b) && LexLe(b, c)
    ensures LexLe(a, c)
  {
    if a != [] && a[0] == b[0] == c[0] {
      LexTransitive(a[1..], b[1..], c[1..]);
    }
  }

  ghost predicate IsFirst(x: string, s: set<string>) {
    x in s && forall y :: y in s ==> LexLe(x, y)
  }

  lemma {:induction false} FirstExists(s: set<string>)
    requires s != {}
    ensures exists x :: IsFirst(x, s)
    decreases |s|
  {
    var x :| x in s;
    var rest := s - {x};
    LexTotal(x, x);
    if rest == {} {
      assert s == {x};
      assert IsFirst(x, s);
    } else {
      FirstExists(rest);
      var m :| IsFirst(m, rest);
      LexTotal(x, m);
      var least := if LexLe(x, m) then x else m;
      forall y | y in s ensures LexLe(least, y) {
        if y != x {
          assert y in rest && LexLe(m, y);
          if least == x { LexTransitive(x, m, y); }
        }
      }
      assert IsFirst(least, s);
    }
  }

  ghost function First(s: set<string>): (x: string)
    requires s != {}
    ensures IsFirst(x, s)
  {
    FirstExists(s);
    var x :| IsFirst(x, s);
    x
  }

  lemma FirstIsUnique(x: string, s: set<string>)
    requires IsFirst(x, s)
    ensures x == First(s)
  {
    assert First(s) in s;
    LexAntisymmetric(x, First(s));
  }

  ghost predicate StrictlySorted(s: seq<string>) {
    forall i, j :: 0 <= i < j < |s| ==> LexLess(s[i], s[j])
  }

  /** The elements of `s` in ascending order: how a B-tree map walks its keys. */
  ghost function Sorted(s: set<string>): (r: seq<string>)
    ensures StrictlySorted(r)
    ensures forall x :: x in r <==> x in s
    ensures |r| == |s|
    decreases |s|
  {
    if s == {} then []
    else
      var x := First(s);
      var rest := Sorted(s - {x});
      assert forall k :: 0 <= k < |rest| ==> rest[k] in s - {x};
      [x] + rest
  }

  lemma HasElement<T>(s: seq<T>)
    requires s != []
    ensures exists x :: x in s
  {
    assert s[0] in s;
  }

  /** There is one strictly sorted listing of a set. */
  lemma {:induction false} StrictlySortedUnique(a: seq<string>, b: seq<string>)
    requires StrictlySorted(a) && StrictlySorted(b)
    requires forall x :: x in a <==> x in b
    ensures a == b
  {
    if a == [] {
      if b != [] { HasElement(b); assert false; }
    } else {
      assert a[0] in b && b != [];
      assert b[0] in a;
      if a[0] != b[0] {
        assert LexLess(a[0], b[0]) && LexLess(b[0], a[0]);
        LexAntisymmetric(a[0], b[0]);
        assert false;
      }
      forall x ensures x in a[1..] <==> x in b[1..] {
        if x in a[1..] { assert x in a && x != a[0]; }
        if x in b[1..] { assert x in b && x != b[0]; }
      }
      StrictlySortedUnique(a[1..], b[1..]);
      assert a == [a[0]] + a[1..] && b == [b[0]] + b[1..];
    }
  }

  // ----- stable sorting by key -----

  function Insert<T>(x: T, s: seq<T>, key: T -> int): (r: seq<T>)
    ensures multiset(r) == multiset{x} + multiset(s)
  {
    if s == [] || key(x) <= key(s[0]) then [x] + s
    else
      assert s == [s[0]] + s[1..];
      [s[0]] + Insert(x, s[1..], key)
  }

  /** What a stable library sort by key returns. */
  function StableSort<T>(s: seq<T>, key: T -> int): (r: seq<T>)
    ensures multiset(r) == multiset(s)
  {
    if s == [] then []
    else
      assert s == [s[0]] + s[1..];
      Insert(s[0], StableSort(s[1..], key), key)
  }

  ghost predicate Ascending<T>(s: seq<T>, key: T -> int) {
    forall i, j :: 0 <= i < j < |s| ==> key(s[i]) <= key(s[j])
  }

  function Filter<T>(s: seq<T>, p: T -> bool): seq<T> {
    if s == [] then [] else if p(s[0]) then [s[0]] + Filter(s[1..], p) else Filter(s[1..], p)
  }

  /** The elements whose key is `k`, in their order of appearance. */
  function WithKey<T>(s: seq<T>, key: T -> int, k: int): seq<T> {
    if s == [] then [] else if key(s[0]) == k then [s[0]] + WithKey(s[1..], key, k) else WithKey(s[1..], key, k)
  }

  /** `out` is ascending and keeps, for every key, the elements with that key in their given order. */
  ghost predicate StableArrangement<T>(out: seq<T>, s: seq<T>, key: T -> int) {
    && Ascending(out, key)
    && forall k :: WithKey(out, key, k) == WithKey(s, key, k)
  }

  lemma {:induction false} FilterMember<T>(s: seq<T>, p: T -> bool, x: T)
    ensures x in Filter(s, p) <==> x in s && p(x)
  {
    if s != [] {
      FilterMember(s[1..], p, x);
      assert s == [s[0]] + s[1..];
    }
  }

  lemma {:induction false} WithKeyMembers<T>(s: seq<T>, key: T -> int, k: int)
    ensures forall x :: x in WithKey(s, key, k) <==> x in s && key(x) == k
  {
    if s != [] {
      WithKeyMembers(s[1..], key, k);
      assert s == [s[0]] + s[1..];
    }
  }

  lemma HeadHasKey<T>(s: seq<T>, key: T -> int)
    requires s != []
    ensures exists k :: WithKey(s, key, k) != []
  {
    assert WithKey(s, key, key(s[0])) != [];
  }

  lemma {:induction false} WithKeyOfFilter<T>(s: seq<T>, p: T -> bool, key: T -> int, k: int)
    ensures WithKey(Filter(s, p), key, k) == Filter(WithKey(s, key, k), p)
  {
    if s != [] { WithKeyOfFilter(s[1..], p, key, k); }
  }

  lemma {:induction false} InsertKeepsKeys<T>(x: T, s: seq<T>, key: T -> int, k: int)
    requires Ascending(s, key)
    ensures WithKey(Insert(x, s, key), key, k) == (if key(x) == k then [x] else []) + WithKey(s, key, k)
  {
    if s != [] && key(x) > key(s[0]) {
      var r := Insert(x, s[1..], key);
      InsertKeepsKeys(x, s[1..], key, k);
      assert Insert(x, s, key) == [s[0]] + r;
      hide Insert;
      assert ([s[0]] + r)[1..] == r;
      assert key(s[0]) == k ==> WithKey(r, key, k) == WithKey(s[1..], key, k);
    } else {
      assert Insert(x, s, key) == [x] + s;
      hide Insert;
      assert ([x] + s)[1..] == s;
    }
  }

  lemma {:induction false} InsertAscends<T>(x: T, s: seq<T>, key: T -> int)
    requires Ascending(s, key)
    ensures Ascending(Insert(x, s, key), key)
  {
    if s != [] && key(x) > key(s[0]) {
      InsertAscends(x, s[1..], key);
      var r := Insert(x, s[1..], key);
      forall j | 0 <= j < |r| ensures key(s[0]) <= key(r[j]) {
        assert r[j] in multiset(r);
        if r[j] != x { assert r[j] in s[1..]; }
      }
    }
  }

  lemma {:induction false} StableSortArranges<T>(s: seq<T>, key: T -> int)
    ensures StableArrangement(StableSort(s, key), s, key)
  {
    if s != [] {
      var r := StableSort(s[1..], key);
      StableSortArranges(s[1..], key);
      InsertAscends(s[0], r, key);
      assert s == [s[0]] + s[1..];
      forall k ensures WithKey(StableSort(s, key), key, k) == WithKey(s, key, k) {
        InsertKeepsKeys(s[0], r, key, k);
        assert WithKey(r, key, k) == WithKey(s[1..], key, k);
      }
    }
  }

  /** A stable arrangement is unique, so it may serve as the definition of the sort. */
  lemma {:induction false} StableArrangementUnique<T>(a: seq<T>, b: seq<T>, key: T -> int)
    requires Ascending(a, key) && Ascending(b, key)
    requires forall k :: WithKey(a, key, k) == WithKey(b, key, k)
    ensures a == b
    decreases |a|
  {
    if a == [] {
      if b != [] {
        HeadHasKey(b, key);
        assert false;
      }
    } else {
      var k0 := key(a[0]);
      WithKeyMembers(b, key, k0);
      assert a[0] in WithKey(a, key, k0);
      assert a[0] in b && b != [];
      var k1 := key(b[0]);
      WithKeyMembers(a, key, k1);
      assert b[0] in WithKey(b, key, k1);
      assert b[0] in a;
      assert k0 == k1;
      assert WithKey(a, key, k0)[0] == a[0] && WithKey(b, key, k0)[0] == b[0];
      forall k ensures WithKey(a[1..], key, k) == WithKey(b[1..], key, k) {
        assert WithKey(a, key, k) == WithKey(b, key, k);
        if k == k0 {
          assert WithKey(a, key, k)[1..] == WithKey(a[1..], key, k);
          assert WithKey(b, key, k)[1..] == WithKey(b[1..], key, k);
        }
      }
      StableArrangementUnique(a[1..], b[1..], key);
      assert a == [a[0]] + a[1..] && b == [b[0]] + b[1..];
    }
  }

  lemma {:induction false} FilterAscending<T>(s: seq<T>, p: T -> bool, key: T -> int)
    requires Ascending(s, key)
    ensures Ascending(Filter(s, p), key)
  {
    if s != [] {
      FilterAscending(s[1..], p, key);
      var r := Filter(s[1..], p);
      forall j | 0 <= j < |r| ensures key(s[0]) <= key(r[j]) {
        FilterMember(s[1..], p, r[j]);
        assert r[j] in s[1..];
      }
    }
  }

  /** Filtering before or after a stable sort gives the same sequence. */
  lemma FilterCommutesWithSort<T>(s: seq<T>, p: T -> bool, key: T -> int)
    ensures Filter(StableSort(s, key), p) == StableSort(Filter(s, p), key)
  {
    var before, after := StableSort(Filter(s, p), key), Filter(StableSort(s, key), p);
    StableSortArranges(s, key);
    StableSortArranges(Filter(s, p), key);
    FilterAscending(StableSort(s, key), p, key);
    forall k ensures WithKey(after, key, k) == WithKey(before, key, k) {
      WithKeyOfFilter(StableSort(s, key), p, key, k);
      WithKeyOfFilter(s, p, key, k);
    }
    StableArrangementUnique(after, before, key);
  }

  // ----- sorting by text -----

  ghost predicate AscendsByText<T>(s: seq<T>, key: T -> string) {
    forall i, j :: 0 <= i < j < |s| ==> LexLe(key(s[i]), key(s[j]))
  }

  function InsertByText<T>(x: T, s: seq<T>, key: T -> string): (r: seq<T>)
    ensures multiset(r) == multiset{x} + multiset(s)
  {
    if s == [] || LexLe(key(x), key(s[0])) then [x] + s
    else
      assert s == [s[0]] + s[1..];
      [s[0]] + InsertByText(x, s[1..], key)
  }

  lemma {:induction false} InsertByTextAscends<T>(x: T, s: seq<T>, key: T -> string)
    requires AscendsByText(s, key)
    ensures AscendsByText(InsertByText(x, s, key), key)
  {
    var r := InsertByText(x, s, key);
    if s == [] {
    } else if LexLe(key(x), key(s[0])) {
      forall j | 0 < j < |r| ensures LexLe(key(x), key(r[j])) {
        LexTotal(key(s[0]), key(s[0]));
        LexTransitive(key(x), key(s[0]), key(s[j - 1]));
      }
    } else {
      LexTotal(key(x), key(s[0]));
      var rest := InsertByText(x, s[1..], key);
      InsertByTextAscends(x, s[1..], key);
      forall j | 0 <= j < |rest| ensures LexLe(key(s[0]), key(rest[j])) {
        assert rest[j] in multiset(rest);
        if rest[j] != x { assert rest[j] in s[1..]; }
      }
    }
  }

  /** What a library sort by a text key returns. */
  function SortByText<T>(s: seq<T>, key: T -> string): (r: seq<T>)
    ensures multiset(r) == multiset(s)
  {
    if s == [] then []
    else
      assert s == [s[0]] + s[1..];
      InsertByText(s[0], SortByText(s[1..], key), key)
  }

  lemma {:induction false} SortByTextAscends<T>(s: seq<T>, key: T -> string)
    ensures AscendsByText(SortByText(s, key), key)
  {
    if s != [] {
      SortByTextAscends(s[1..], key);
      InsertByTextAscends(s[0], SortByText(s[1..], key), key);
    }
  }

  // ----- sequences -----

  function Members<T(==)>(s: seq<T>): set<T> { set x | x in s }

  lemma SameMembers<T>(a: seq<T>, b: seq<T>)
    requires multiset(a) == multiset(b)
    ensures |a| == |b| && Members(a) == Members(b)
  {
    assert |a| == |multiset(a)| == |multiset(b)| == |b|;
    forall x ensures x in Members(a) <==> x in Members(b) { assert x in multiset(a) <==> x in multiset(b); }
  }

  lemma AppendAssociates<T>(a: seq<T>, b: seq<T>, c: seq<T>)
    ensures a + (b + c) == (a + b) + c
  {}
}
