/** Orders and sorting: what `sorted(...)` and `ORDER BY ... COLLATE "C"` give the program.

    Text is a sequence of code units (bytes or code points), compared unit by unit as
    Python compares `str` and `bytes`. */
module Ordering {

  type Text = seq<int>
  type byte = n: int | 0 <= n < 256

  predicate TextLeq(a: Text, b: Text) {
    || a == []
    || (b != [] && (a[0] < b[0] || (a[0] == b[0] && TextLeq(a[1..], b[1..]))))
  }

  /** They are equal up to `k`, where `a` ends or has the smaller unit. */
  predicate DecidedAt(a: Text, b: Text, k: nat) {
    && k <= |a| && k <= |b| && a[..k] == b[..k]
    && (k == |a| || (k < |a| && k < |b| && a[k] < b[k]))
  }

  lemma {:induction false} TextLeqIff(a: Text, b: Text)
    ensures TextLeq(a, b) <==> exists k :: DecidedAt(a, b, k)
  {
    if a == [] {
      assert DecidedAt(a, b, 0);
    } else if b != [] && a[0] == b[0] {
      TextLeqIff(a[1..], b[1..]);
      if k: nat :| DecidedAt(a[1..], b[1..], k) {
        assert a[..k + 1] == [a[0]] + a[1..][..k] && b[..k + 1] == [b[0]] + b[1..][..k];
        assert DecidedAt(a, b, k + 1);
      }
      if k: nat :| DecidedAt(a, b, k) {
        assert a[..k][1..] == a[1..][..k - 1] && b[..k][1..] == b[1..][..k - 1];
        assert DecidedAt(a[1..], b[1..], k - 1);
      }
    } else if b != [] && a[0] < b[0] {
      assert DecidedAt(a, b, 0);
    } else if k: nat :| DecidedAt(a, b, k) {
      assert false;
    }
  }

  ghost predicate TotalOrder<T(!new)>(leq: (T, T) -> bool) {
    && (forall x :: leq(x, x))
    && (forall x, y :: leq(x, y) || leq(y, x))
    && (forall x, y :: leq(x, y) && leq(y, x) ==> x == y)
    && (forall x, y, z :: leq(x, y) && leq(y, z) ==> leq(x, z))
  }

  lemma {:induction false} TextLeqTotal(a: Text, b: Text)
    ensures TextLeq(a, b) || TextLeq(b, a)
    ensures TextLeq(a, b) && TextLeq(b, a) ==> a == b
  {
    if a != [] && b != [] && a[0] == b[0] {
      TextLeqTotal(a[1..], b[1..]);
      assert a == [a[0]] + a[1..] && b == [b[0]] + b[1..];
    }
  }

  lemma {:induction false} TextLeqTransitive(a: Text, b: Text, c: Text)
    requires TextLeq(a, b) && TextLeq(b, c)
    ensures TextLeq(a, c)
  {
    if a != [] && a[0] == b[0] == c[0] {
      TextLeqTransitive(a[1..], b[1..], c[1..]);
    }
  }

  lemma TextOrder()
    ensures TotalOrder(TextLeq)
  {
    forall a, b ensures TextLeq(a, b) || TextLeq(b, a) { TextLeqTotal(a, b); }
    forall a, b | TextLeq(a, b) && TextLeq(b, a) ensures a == b { TextLeqTotal(a, b); }
    forall a, b, c | TextLeq(a, b) && TextLeq(b, c) ensures TextLeq(a, c) { TextLeqTransitive(a, b, c); }
  }

  /** Tables are compared as `(schema, name)` tuples. */
  datatype TableKey = TableKey(schema: Text, name: Text)

  predicate KeyLeq(a: TableKey, b: TableKey) {
    if a.schema == b.schema then TextLeq(a.name, b.name) else TextLeq(a.schema, b.schema)
  }

  lemma KeyOrder()
    ensures TotalOrder(KeyLeq)
  {
    forall a, b ensures KeyLeq(a, b) || KeyLeq(b, a) {
      TextLeqTotal(a.schema, b.schema); TextLeqTotal(a.name, b.name);
    }
    forall a, b | KeyLeq(a, b) && KeyLeq(b, a) ensures a == b {
      TextLeqTotal(a.schema, b.schema); TextLeqTotal(a.name, b.name);
    }
    forall a, b, c | KeyLeq(a, b) && KeyLeq(b, c) ensures KeyLeq(a, c) {
      KeyLeqTransitive(a, b, c);
    }
  }

  lemma KeyLeqTransitive(a: TableKey, b: TableKey, c: TableKey)
    requires KeyLeq(a, b) && KeyLeq(b, c)
    ensures KeyLeq(a, c)
  {
    if a.schema == b.schema == c.schema {
      TextLeqTransitive(a.name, b.name, c.name);
    } else if a.schema != b.schema && b.schema != c.schema {
      TextLeqTransitive(a.schema, b.schema, c.schema);
      TextLeqTotal(a.schema, b.schema);
    }
  }

  // ---- sorting ----

  ghost predicate SortedBy<T>(leq: (T, T) -> bool, s: seq<T>) {
    forall i, j :: 0 <= i < j < |s| ==> leq(s[i], s[j])
  }

  function Insert<T>(leq: (T, T) -> bool, x: T, s: seq<T>): (r: seq<T>)
    ensures multiset(r) == multiset(s) + multiset{x}
    ensures |r| == |s| + 1
  {
    if s == [] then [x]
    else if leq(x, s[0]) then [x] + s
    else
      assert s == [s[0]] + s[1..];
      [s[0]] + Insert(leq, x, s[1..])
  }

  lemma {:induction false} InsertSorted<T(!new)>(leq: (T, T) -> bool, x: T, s: seq<T>)
    requires TotalOrder(leq) && SortedBy(leq, s)
    ensures SortedBy(leq, Insert(leq, x, s))
  {
    if s != [] && !leq(x, s[0]) {
      InsertSorted(leq, x, s[1..]);
      var rest := Insert(leq, x, s[1..]);
      forall i | 0 <= i < |rest| ensures leq(s[0], rest[i]) {
        assert rest[i] in multiset(rest);
        assert rest[i] == x || rest[i] in multiset(s[1..]);
      }
    }
  }

  function Sort<T(!new)>(leq: (T, T) -> bool, s: seq<T>): (r: seq<T>)
    ensures multiset(r) == multiset(s)
    ensures |r| == |s|
    ensures TotalOrder(leq) ==> SortedBy(leq, r)
  {
    if s == [] then []
    else
      assert s == [s[0]] + s[1..];
      var rest := Sort(leq, s[1..]);
      assert TotalOrder(leq) ==> SortedBy(leq, Insert(leq, s[0], rest)) by {
        if TotalOrder(leq) { InsertSorted(leq, s[0], rest); }
      }
      Insert(leq, s[0], rest)
  }

  lemma HeadIsLeast<T(!new)>(leq: (T, T) -> bool, s: seq<T>, x: T)
    requires TotalOrder(leq) && SortedBy(leq, s) && x in multiset(s)
    ensures leq(s[0], x)
  {
    var i :| 0 <= i < |s| && s[i] == x;
  }

  /** A sorted arrangement of a multiset is unique: sorting is a canonical form. */
  lemma {:induction false} SortedUnique<T(!new)>(leq: (T, T) -> bool, a: seq<T>, b: seq<T>)
    requires TotalOrder(leq) && SortedBy(leq, a) && SortedBy(leq, b)
    requires multiset(a) == multiset(b)
    ensures a == b
  {
    assert |a| == |multiset(a)| == |multiset(b)| == |b|;
    if a != [] {
      assert a[0] in multiset(a) && b[0] in multiset(b);
      HeadIsLeast(leq, b, a[0]);
      HeadIsLeast(leq, a, b[0]);
      assert a == [a[0]] + a[1..] && b == [b[0]] + b[1..];
      assert multiset(a[1..]) == multiset(a) - multiset{a[0]};
      assert multiset(b[1..]) == multiset(b) - multiset{b[0]};
      SortedUnique(leq, a[1..], b[1..]);
    }
  }

  /** Sorting two lists gives the same list exactly when they hold the same elements,
      counting duplicates. */
  lemma SortCanonical<T(!new)>(leq: (T, T) -> bool, a: seq<T>, b: seq<T>)
    requires TotalOrder(leq)
    ensures Sort(leq, a) == Sort(leq, b) <==> multiset(a) == multiset(b)
  {
    if multiset(a) == multiset(b) { SortedUnique(leq, Sort(leq, a), Sort(leq, b)); }
  }

  // ---- sorted table sets: `min(tables)` and `sorted(tables)` ----

  ghost predicate IsLeast<T>(leq: (T, T) -> bool, s: set<T>, m: T) {
    m in s && forall y :: y in s ==> leq(m, y)
  }

  lemma LesserIsLeast<T(!new)>(leq: (T, T) -> bool, s: set<T>, x: T, m: T)
    requires TotalOrder(leq) && x in s && IsLeast(leq, s - {x}, m)
    ensures IsLeast(leq, s, if leq(x, m) then x else m)
  {
    forall y | y in s ensures leq(if leq(x, m) then x else m, y) {
      if y != x { assert y in s - {x} && leq(m, y); }
    }
  }

  lemma {:induction false} LeastExists<T(!new)>(leq: (T, T) -> bool, s: set<T>)
    requires TotalOrder(leq) && s != {}
    ensures exists m :: IsLeast(leq, s, m)
  {
    var x :| x in s;
    if s == {x} {
      assert IsLeast(leq, s, x);
    } else {
      LeastExists(leq, s - {x});
      var m :| IsLeast(leq, s - {x}, m);
      LesserIsLeast(leq, s, x, m);
    }
  }

  function Least(s: set<TableKey>): (least: TableKey)
    requires s != {}
    ensures least in s && forall y :: y in s ==> KeyLeq(least, y)
  {
    KeyOrder();
    LeastExists(KeyLeq, s);
    assert exists m :: m in s && forall y :: y in s ==> KeyLeq(m, y) by {
      var m :| IsLeast(KeyLeq, s, m);
    }
    var x :| x in s && forall y :: y in s ==> KeyLeq(x, y);
    x
  }

  ghost predicate Ascending(r: seq<TableKey>) {
    forall i, j :: 0 <= i < j < |r| ==> KeyLeq(r[i], r[j]) && r[i] != r[j]
  }

  lemma AscendingCons(x: TableKey, rest: seq<TableKey>)
    requires Ascending(rest) && forall y :: y in rest ==> KeyLeq(x, y) && x != y
    ensures Ascending([x] + rest)
  {
    hide KeyLeq;
    var r := [x] + rest;
    forall i, j | 0 <= i < j < |r| ensures KeyLeq(r[i], r[j]) && r[i] != r[j] {
      assert r[j] == rest[j - 1] && r[j] in rest;
      if i > 0 { assert r[i] == rest[i - 1]; }
    }
  }

  function SortedKeys(s: set<TableKey>): (r: seq<TableKey>)
    ensures forall x :: x in r <==> x in s
    ensures Ascending(r)
    ensures |r| == |s|
  {
    hide KeyLeq, Ascending;
    if s == {} then
      Nothing();
      []
    else
      var least := Least(s);
      var rest := SortedKeys(s - {least});
      AscendingCons(least, rest);
      [least] + rest
  }

  lemma Nothing()
    ensures Ascending([])
  {
  }

  /** A list holding each element of a set once, in no particular order. */
  method Listed<T(==)>(s: set<T>) returns (r: seq<T>)
    ensures forall x :: x in r <==> x in s
    ensures |r| == |s|
    ensures forall i, j :: 0 <= i < j < |r| ==> r[i] != r[j]
  {
    r := [];
    var rest := s;
    while rest != {}
      invariant rest <= s && forall x :: x in r <==> x in s - rest
      invariant |r| + |rest| == |s|
      invariant forall i, j :: 0 <= i < j < |r| ==> r[i] != r[j]
    {
      var x :| x in rest;
      r, rest := r + [x], rest - {x};
    }
  }
}
