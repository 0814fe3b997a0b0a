/** The chunk schedule of the reducer (reducer/ddmin.py) and its cost. */
module Ddmin {

  function CeilDiv(n: nat, d: nat): (q: nat)
    requires d > 0
    ensures q * d >= n
    ensures q > 0 ==> (q - 1) * d < n
  {
    CeilDivBounds(n, d);
    (n + d - 1) / d
  }

  lemma CeilDivBounds(n: nat, d: nat)
    requires d > 0
    ensures (n + d - 1) / d * d >= n
    ensures (n + d - 1) / d > 0 ==> ((n + d - 1) / d - 1) * d < n
  {
    var q, r := (n + d - 1) / d, (n + d - 1) % d;
    assert q * d + r == n + d - 1;
    assert (q - 1) * d == q * d - d;
  }

  function Pow2(k: nat): (p: nat)
    ensures p > 0
  {
    if k == 0 then 1 else 2 * Pow2(k - 1)
  }

  /** The sizes `sizes(count)` yields. */
  function Sizes(count: nat): seq<nat>
    decreases count
  {
    if count == 0 then []
    else if count == 1 then [1]
    else [count] + Sizes((count + 1) / 2)
  }

  /** The schedule starts with the whole table and ends with single rows. */
  lemma {:induction false} SizesShape(count: nat)
    ensures forall i :: 0 <= i < |Sizes(count)| ==> 0 < Sizes(count)[i] <= count
    ensures if count == 0 then Sizes(count) == []
            else Sizes(count) != [] && Sizes(count)[0] == count && Sizes(count)[|Sizes(count)| - 1] == 1
    decreases count
  {
    if count > 1 {
      var half := (count + 1) / 2;
      SizesShape(half);
      assert Sizes(count) == [count] + Sizes(half);
    }
  }

  method SizesOf(start: nat) returns (s: seq<nat>)
    ensures s == Sizes(start)
  {
    hide Sizes;
    s := [];
    var count := start;
    while count > 0
      invariant s + Sizes(count) == Sizes(start)
      decreases count
    {
      SizesNext(s, count);
      s := s + [count];
      if count == 1 {
        break;
      }
      count := (count + 1) / 2;
    }
    if count == 0 { NoSizes(); }
  }

  lemma NoSizes()
    ensures Sizes(0) == []
  {
  }

  lemma SizesNext(s: seq<nat>, count: nat)
    requires count > 0
    ensures s + Sizes(count) == s + [count] + (if count == 1 then [] else Sizes((count + 1) / 2))
    ensures count == 1 ==> s + Sizes(count) == s + [count]
  {
    if count > 1 {
      var half := (count + 1) / 2;
      var rest := Sizes(half);
      assert Sizes(count) == [count] + rest;
      Regroup(s, [count], rest);
    }
  }

  lemma Regroup<T>(a: seq<T>, b: seq<T>, c: seq<T>)
    ensures a + (b + c) == a + b + c
  {
  }

  lemma Doubled(q: int, p: int)
    ensures q * (2 * p) == 2 * (q * p)
  {
  }

  /** Rounding up twice is rounding up once: ceil(ceil(n/2)/2^k) = ceil(n/2^(k+1)). */
  lemma HalvingIsCeil(n: nat, k: nat)
    ensures CeilDiv((n + 1) / 2, Pow2(k)) == CeilDiv(n, Pow2(k + 1))
  {
    var p := Pow2(k);
    var q := CeilDiv(n, 2 * p);
    Doubled(q, p);
    if q > 0 { Doubled(q - 1, p); }
    CeilDivUnique((n + 1) / 2, p, q);
  }

  lemma CeilDivUnique(n: nat, d: nat, q: nat)
    requires d > 0 && q * d >= n && (q > 0 ==> (q - 1) * d < n)
    ensures CeilDiv(n, d) == q
  {
    var c := CeilDiv(n, d);
    if c < q { MulMono(c, q - 1, d); }
    if q < c { MulMono(q, c - 1, d); }
  }

  lemma MulMono(a: int, b: int, d: nat)
    requires a <= b
    ensures a * d <= b * d
  {
    assert (b - a) * d >= 0;
    assert (b - a) * d == b * d - a * d;
  }

  /** The schedule in closed form: entry k is ceil(n / 2^k), and the last one is 1. */
  lemma {:induction false} SizesClosedForm(n: nat, k: nat)
    requires k < |Sizes(n)|
    ensures Sizes(n)[k] == CeilDiv(n, Pow2(k))
    decreases n
  {
    if k > 0 {
      SizesClosedForm((n + 1) / 2, k - 1);
      HalvingIsCeil(n, k - 1);
    }
  }

  /** The list cut into consecutive chunks of `size` (the last one may be shorter). */
  function Chunks<T>(rows: seq<T>, size: nat): (c: seq<seq<T>>)
    requires size > 0
    ensures forall i :: 0 <= i < |c| ==> 0 < |c[i]| <= size && forall x :: x in c[i] ==> x in rows
    ensures |c| == CeilDiv(|rows|, size)
    decreases |rows|
  {
    if |rows| == 0 then
      assert CeilDiv(0, size) == 0 by { CeilDivUnique(0, size, 0); }
      []
    else if |rows| <= size then
      assert CeilDiv(|rows|, size) == 1 by { CeilDivUnique(|rows|, size, 1); }
      [rows]
    else
      var rest := Chunks(rows[size..], size);
      assert CeilDiv(|rows|, size) == 1 + |rest| by {
        var q := |rest|;
        assert (1 + q) * size == size + q * size;
        if q > 0 { assert (q - 1) * size + size == q * size; }
        CeilDivUnique(|rows|, size, 1 + q);
      }
      [rows[..size]] + rest
  }

  method ChunksOf<T>(rows: seq<T>, size: nat) returns (c: seq<seq<T>>)
    requires size > 0
    ensures c == Chunks(rows, size)
  {
    hide Chunks;
    c := [];
    var start := 0;
    while start < |rows|
      invariant 0 <= start
      invariant c + Chunks(if start <= |rows| then rows[start..] else [], size) == Chunks(rows, size)
      decreases |rows| - start
    {
      var stop := if start + size < |rows| then start + size else |rows|;
      ChunksNext(rows, start, stop, size);
      Regroup(c, [rows[start..stop]], Chunks(rows[stop..], size));
      assert rows[|rows|..] == [];
      c := c + [rows[start..stop]];
      start := start + size;
    }
    NoChunks<T>(size);
    assert rows[|rows|..] == [];
  }

  lemma NoChunks<T>(size: nat)
    requires size > 0
    ensures Chunks<T>([], size) == []
  {
  }

  lemma ChunksNext<T>(rows: seq<T>, start: nat, stop: nat, size: nat)
    requires size > 0 && start < |rows| && stop == if start + size < |rows| then start + size else |rows|
    ensures Chunks(rows[start..], size) == [rows[start..stop]] + Chunks(rows[stop..], size)
  {
    var rest := rows[start..];
    if start + size < |rows| {
      assert rest[..size] == rows[start..stop] && rest[size..] == rows[stop..];
    } else {
      assert rows[start..stop] == rest && rows[stop..] == [];
    }
  }

  function Flatten<T>(c: seq<seq<T>>): seq<T> {
    if c == [] then [] else c[0] + Flatten(c[1..])
  }

  /** Chunks lose nothing, duplicate nothing and keep the order. */
  lemma {:induction false} ChunksCover<T>(rows: seq<T>, size: nat)
    requires size > 0
    ensures Flatten(Chunks(rows, size)) == rows
    ensures var c := Chunks(rows, size); forall i :: 0 <= i < |c| - 1 ==> |c[i]| == size
    decreases |rows|
  {
    if |rows| > size {
      ChunksCover(rows[size..], size);
      assert rows == rows[..size] + rows[size..];
    } else if |rows| > 0 {
      assert Flatten([rows]) == rows + Flatten([]);
    }
  }

  /** Chunks of one row are the rows. */
  lemma {:induction false} SingleChunks<T>(rows: seq<T>, i: nat)
    requires i < |rows|
    ensures |Chunks(rows, 1)| == |rows| && Chunks(rows, 1)[i] == [rows[i]]
    decreases |rows|
  {
    CeilDivUnique(|rows|, 1, |rows|);
    if |rows| == 1 {
      assert rows == [rows[0]];
    } else {
      assert rows[..1] == [rows[0]];
      if i > 0 { SingleChunks(rows[1..], i - 1); }
    }
  }

  // ---- cost of one pass over a table ----

  /** Chunks made by all sizes of a schedule, over a list of `n` rows. */
  function PassCost(sizes: seq<nat>, n: nat): nat {
    if sizes == [] then 0
    else (if sizes[0] == 0 then 0 else CeilDiv(n, sizes[0])) + PassCost(sizes[1..], n)
  }

  lemma CeilDivMono(m: nat, n: nat, d: nat)
    requires d > 0 && m <= n
    ensures CeilDiv(m, d) <= CeilDiv(n, d)
  {
    var a, b := CeilDiv(m, d), CeilDiv(n, d);
    if b < a { MulMono(b, a - 1, d); }
  }

  /** ceil(n / ceil(n/p)) <= p. */
  lemma CeilOfCeil(n: nat, p: nat)
    requires p > 0 && n > 0
    ensures CeilDiv(n, p) > 0 && CeilDiv(n, CeilDiv(n, p)) <= p
  {
    var s := CeilDiv(n, p);
    assert s * p >= n;
    assert s > 0;
    var q := CeilDiv(n, s);
    assert p * s == s * p;
    if q > p { MulMono(p, q - 1, s); }
  }

  /** From size ceil(n/p) on, the schedule makes at most 3n - p chunks: the chunk count at
      most doubles from one size to the next, and the last size has n chunks. */
  lemma {:induction false} TailCost(n: nat, p: nat, m: nat)
    requires n > 0 && p > 0 && m == CeilDiv(n, p) > 0
    requires m == 1 ==> p <= 2 * n
    ensures PassCost(Sizes(m), n) <= 3 * n - p
    decreases m
  {
    if m == 1 {
      CeilDivUnique(n, 1, n);
    } else {
      var h := (m + 1) / 2;
      if p >= n { CeilDivUnique(n, p, 1); }
      HalvedCeil(n, p);
      TailCost(n, 2 * p, h);
      CeilOfCeil(n, p);
    }
  }

  /** ceil(ceil(n/p)/2) = ceil(n/2p). */
  lemma HalvedCeil(n: nat, p: nat)
    requires p > 0
    ensures (CeilDiv(n, p) + 1) / 2 == CeilDiv(n, 2 * p)
  {
    var m := CeilDiv(n, p);
    var h := (m + 1) / 2;
    Doubled(h, p);
    if h > 0 { Doubled(h - 1, p); }
    MulMono(m, 2 * h, p);
    TwiceTimes(h, p);
    if h > 0 { TwiceTimes(h - 1, p); }
    if h > 0 { MulMono(2 * (h - 1), m - 1, p); }
    CeilDivUnique(n, 2 * p, h);
  }

  lemma TwiceTimes(h: int, p: int)
    ensures 2 * h * p == 2 * (h * p)
  {
  }

  /** One pass over a table that starts with n >= 1 rows and never grows makes fewer than
      3n attempts. */
  lemma PassBound(n: nat)
    ensures PassCost(Sizes(n), n) <= 3 * n
    ensures n > 0 ==> PassCost(Sizes(n), n) < 3 * n
  {
    if n > 0 {
      CeilDivUnique(n, 1, n);
      TailCost(n, 1, n);
    }
  }

  lemma {:induction false} PassCostSnoc(sizes: seq<nat>, size: nat, n: nat)
    requires size > 0
    ensures PassCost(sizes + [size], n) == PassCost(sizes, n) + CeilDiv(n, size)
    decreases |sizes|
  {
    if sizes == [] {
      assert [] + [size] == [size] && [size][1..] == [];
    } else {
      assert (sizes + [size])[1..] == sizes[1..] + [size];
      PassCostSnoc(sizes[1..], size, n);
    }
  }
}
