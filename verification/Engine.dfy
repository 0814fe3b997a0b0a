/** The reduction loop (reducer/engine.py, `reduce`). */
module Engine {
  import opened Wrappers
  import opened Ordering
  import opened Schema
  import opened States
  import opened Steps
  import opened Verdicts
  import opened Oracle
  import opened Ddmin
  import opened Backends

  // ---- what the probes of a pass show ----

  /** Removing `rows` of `table` was tried in state `s` and refused. */
  ghost predicate RefusedRows(log: seq<Probe>, s: State, table: TableKey, rows: seq<RowKey>) {
    exists i ::
      && 0 <= i < |log|
      && log[i].before == s && log[i].table == table && log[i].rows == rows && !log[i].answer.Accepted?
  }

  /** Row `k` of `table` was tried alone in state `s` and refused. */
  ghost predicate RefusedAlone(log: seq<Probe>, s: State, table: TableKey, k: RowKey) {
    RefusedRows(log, s, table, [k])
  }

  lemma RefusedIn(a: seq<Probe>, b: seq<Probe>, s: State, table: TableKey, k: RowKey)
    requires RefusedAlone(a, s, table, k) || RefusedAlone(b, s, table, k)
    ensures RefusedAlone(a + b, s, table, k)
  {
    if RefusedAlone(a, s, table, k) {
      var i :| 0 <= i < |a| && a[i].before == s && a[i].table == table && a[i].rows == [k] && !a[i].answer.Accepted?;
      assert (a + b)[i] == a[i];
    } else {
      var i :| 0 <= i < |b| && b[i].before == s && b[i].table == table && b[i].rows == [k] && !b[i].answer.Accepted?;
      assert (a + b)[|a| + i] == b[i];
    }
  }

  /** No accepted candidate has more rows than before in any table. */
  ghost predicate NeverGrows(log: seq<Probe>) {
    forall i, t :: 0 <= i < |log| && t in log[i].before && t in log[i].after ==>
      |log[i].after[t]| <= |log[i].before[t]|
  }

  lemma {:induction false} NeverGrowsTable(log: seq<Probe>, s: State, t: State, table: TableKey)
    requires Chain(log, s, t) && NeverGrows(log) && table in s
    ensures table in t && |t[table]| <= |s[table]|
  {
    hide Coherent;
    if log != [] {
      var n := |log| - 1;
      assert NeverGrows(log[..n]);
      NeverGrowsTable(log[..n], s, log[n].before, table);
      CoherentShrinks(log[n]);
    }
  }

  lemma NeverGrowsParts(a: seq<Probe>, b: seq<Probe>)
    requires NeverGrows(a + b)
    ensures NeverGrows(a) && NeverGrows(b)
  {
    forall i, t | 0 <= i < |a| && t in a[i].before && t in a[i].after ensures |a[i].after[t]| <= |a[i].before[t]| {
      assert (a + b)[i] == a[i];
    }
    forall i, t | 0 <= i < |b| && t in b[i].before && t in b[i].after ensures |b[i].after[t]| <= |b[i].before[t]| {
      assert (a + b)[|a| + i] == b[i];
    }
  }

  /** In a world whose deletions never leave more rows, no accepted candidate has. */
  lemma ShrinkingNeverGrows(w: World, calls: seq<Call>, log: seq<Probe>)
    requires Shrinking(w) && AllExplained(w, calls, log) && forall i :: 0 <= i < |log| ==> Coherent(log[i])
    ensures NeverGrows(log)
  {
    hide Shrinking, Explained, Coherent;
    forall i, t | 0 <= i < |log| && t in log[i].before && t in log[i].after
      ensures |log[i].after[t]| <= |log[i].before[t]|
    {
      ProbeNeverGrows(w, calls, log[i], t);
    }
  }

  lemma ProbeNeverGrows(w: World, calls: seq<Call>, p: Probe, t: TableKey)
    requires Shrinking(w) && Explained(w, calls, p) && Coherent(p) && t in p.before && t in p.after
    ensures |p.after[t]| <= |p.before[t]|
  {
    hide StateOf, Size, Present, Told, Rests, Deterministic;
    if p.answer.Accepted? {
      assert ShrinkCase(w, p.index, p.store.data, p.table, p.rows, t);
      StateLength(w.tables, p.store.data, t);
      StateLength(w.tables, p.answer.left, t);
    }
  }

  lemma AllRefusedParts(a: seq<Probe>, b: seq<Probe>)
    ensures AllRefused(a + b) <==> AllRefused(a) && AllRefused(b)
  {
    if AllRefused(a + b) {
      forall i | 0 <= i < |a| ensures !a[i].answer.Accepted? { assert (a + b)[i] == a[i]; }
      forall i | 0 <= i < |b| ensures !b[i].answer.Accepted? { assert (a + b)[|a| + i] == b[i]; }
    }
  }

  /** The probes made between two glances. */
  ghost function Since(g: Glance, h: Glance): seq<Probe>
    requires |g.log| <= |h.log|
  {
    h.log[|g.log|..]
  }

  lemma LookState(b: Backend)
    ensures b.Look().state == b.State()
  {
    hide Deterministic, Robust;
  }

  // ---- one size: the innermost loop ----

  /** `[row for row in candidate if row in present]` */
  function Filtered(chunk: seq<RowKey>, present: seq<RowKey>): (r: seq<RowKey>)
    ensures forall k :: k in r <==> k in chunk && k in present
    ensures (forall k :: k in chunk ==> k in present) ==> r == chunk
  {
    if chunk == [] then []
    else (if chunk[0] in present then [chunk[0]] else []) + Filtered(chunk[1..], present)
  }

  /** Part by part, so the order is that of the chunk. */
  lemma {:induction false} FilteredParts(a: seq<RowKey>, b: seq<RowKey>, present: seq<RowKey>)
    ensures Filtered(a + b, present) == Filtered(a, present) + Filtered(b, present)
  {
    if a == [] {
      assert a + b == b;
    } else {
      assert (a + b)[1..] == a[1..] + b;
      FilteredParts(a[1..], b, present);
    }
  }

  /** One probe after the other asked for the rows of each chunk that were still in the table
      then, in order; a chunk without such rows was passed over. */
  ghost predicate InTurn(log: seq<Probe>, s: State, t: State, table: TableKey, chunks: seq<seq<RowKey>>)
    decreases |chunks|
  {
    if chunks == [] then log == [] && t == s
    else
      var rest, chunk := chunks[..|chunks| - 1], chunks[|chunks| - 1];
      || (table in t && Filtered(chunk, t[table]) == [] && InTurn(log, s, t, table, rest))
      || (log != [] && AskedFor(log[|log| - 1], t, table, chunk)
          && InTurn(log[..|log| - 1], s, log[|log| - 1].before, table, rest))
  }

  /** The probe asked for the rows of `chunk` that were still there and led to state `t`. */
  ghost predicate AskedFor(p: Probe, t: State, table: TableKey, chunk: seq<RowKey>) {
    && p.table == table && table in p.before && p.after == t
    && p.rows == Filtered(chunk, p.before[table]) && p.rows != []
  }

  /** As long as nothing is accepted, every chunk with rows in the table is asked for as it is. */
  lemma {:induction false} InTurnAsked(log: seq<Probe>, s: State, t: State, table: TableKey,
                                       chunks: seq<seq<RowKey>>, i: nat)
    requires InTurn(log, s, t, table, chunks) && Chain(log, s, t) && AllRefused(log) && table in s
    requires i < |chunks| && chunks[i] != [] && forall k :: k in chunks[i] ==> k in s[table]
    ensures RefusedRows(log, s, table, chunks[i])
    decreases |chunks|
  {
    hide Coherent;
    var n := |chunks| - 1;
    var rest, first := chunks[..n], chunks[i][0];
    assert first in chunks[i];
    RefusedStays(log, s, t);
    if Filtered(chunks[n], t[table]) == [] && InTurn(log, s, t, table, rest) {
      InTurnAsked(log, s, t, table, rest, i);
    } else {
      var m := |log| - 1;
      assert AllRefused(log[..m]);
      RefusedStays(log[..m], s, log[m].before);
      if i < n {
        InTurnAsked(log[..m], s, log[m].before, table, rest, i);
        var j :| 0 <= j < m && log[..m][j].before == s && log[..m][j].table == table
          && log[..m][j].rows == chunks[i] && !log[..m][j].answer.Accepted?;
        assert log[j] == log[..m][j];
      }
    }
  }

  /** Where the loop over the chunks stands after the first `i` of them. */
  ghost predicate Chunked(g: Glance, h: Glance, table: TableKey, chunked: seq<seq<RowKey>>, i: nat, changed: bool) {
    && i <= |chunked| && table in g.state && Went(g, h)
    && InTurn(Since(g, h), g.state, h.state, table, chunked[..i])
    && |Since(g, h)| <= i
    && (changed <==> !AllRefused(Since(g, h)))
    && (!changed ==> h.state == g.state)
  }

  lemma ChunkedNext(g: Glance, h: Glance, x: Glance, table: TableKey, chunked: seq<seq<RowKey>>, i: nat, changed: bool,
                    candidate: seq<RowKey>, accepted: bool)
    requires Chunked(g, h, table, chunked, i, changed) && i < |chunked| && table in h.state
    requires candidate == Filtered(chunked[i], h.state[table])
    requires if candidate == [] then x == h && !accepted else Probed(h, x, table, candidate, accepted)
    ensures Chunked(g, x, table, chunked, i + 1, changed || accepted)
  {
    hide Chain, Coherent, Filtered, Explained, Step;
    var next := chunked[..i + 1];
    assert next[..|next| - 1] == chunked[..i] && next[|next| - 1] == chunked[i];
    if candidate != [] {
      ProbedWent(h, x, table, candidate, accepted);
      WentTransitive(g, h, x);
      var p := x.log[|h.log|];
      var log := Since(g, h) + [p];
      assert Since(g, x) == log && log[..|log| - 1] == Since(g, h);
      AllRefusedParts(Since(g, h), [p]);
      assert AskedFor(p, x.state, table, chunked[i]);
      if !changed && !accepted { ProbedRefused(h, x, table, candidate); }
    }
  }

  lemma ProbedRefused(h: Glance, x: Glance, table: TableKey, rows: seq<RowKey>)
    requires Probed(h, x, table, rows, false)
    ensures x.state == h.state && x.log[|h.log|].before == h.state
    ensures x.log[|h.log|].table == table && x.log[|h.log|].rows == rows && !x.log[|h.log|].answer.Accepted?
  {
  }

  lemma WentKeys(g: Glance, h: Glance)
    requires Went(g, h)
    ensures h.state.Keys == g.state.Keys && Size(h.state) <= Size(g.state)
    ensures !AllRefused(Since(g, h)) ==> Size(h.state) < Size(g.state)
  {
    ChainShrinks(Since(g, h), g.state, h.state);
    hide Chain, Size;
  }

  lemma ChunkedMeans(g: Glance, h: Glance, table: TableKey, chunked: seq<seq<RowKey>>, i: nat, changed: bool)
    requires Chunked(g, h, table, chunked, i, changed)
    ensures Went(g, h) && table in g.state && table in h.state
  {
    WentKeys(g, h);
    hide Chain, Size;
  }

  lemma ChunkedStart(g: Glance, table: TableKey, chunked: seq<seq<RowKey>>)
    requires table in g.state
    ensures Chunked(g, g, table, chunked, 0, false)
  {
    WentRefl(g);
    hide Chain;
  }

  method SizePass(b: Backend, table: TableKey, size: nat, start: State) returns (r: Try<State>, changed: bool)
    requires b.Valid() && start == b.State() && table in start && size > 0
    modifies b.Footprint()
    ensures r.Done? ==> b.Valid() && r.value == b.State()
    ensures r.Done? ==>
      Chunked(old(b.Look()), b.Look(), table, Chunks(start[table], size), |Chunks(start[table], size)|, changed)
    ensures r.KeyError? ==> !b.Look().untaken
    ensures old(b.Look()).smooth ==> r.Done? && b.Look().smooth
  {
    hide Size, Chunked, Chunks, Chain, Went, Probed, Coherent, Deterministic, Backend.Valid, Backend.Look,
         Backend.State, Filtered, Since, RefusedAlone, AllRefused;
    LookState(b);
    ghost var g := b.Look();
    var state := start;
    var present := state[table];
    var chunked := ChunksOf(state[table], size);
    changed := false;
    ChunkedStart(g, table, chunked);
    for i := 0 to |chunked|
      invariant b.Valid() && state == b.State() && table in state && present == state[table]
      invariant Chunked(g, b.Look(), table, chunked, i, changed) && (g.smooth ==> b.Look().smooth)
    {
      LookState(b);
      ghost var h := b.Look();
      var candidate := Filtered(chunked[i], present);
      var accepted := false;
      if candidate != [] {
        var answer := Attempt(b, table, candidate);
        LookState(b);
        match answer {
          case Passed(e) => return Passed(e), changed;
          case KeyError => return KeyError, changed;
          case Done(a) => accepted := a;
        }
      }
      ChunkedNext(g, h, b.Look(), table, chunked, i, changed, candidate, accepted);
      ChunkedMeans(g, b.Look(), table, chunked, i + 1, changed || accepted);
      if accepted {
        var before := Size(state);
        state := b.State();
        present := state[table];
        AcceptedShrinks(h, b.Look(), table, candidate);
        if Size(state) >= before {
          assert false;  // "Accepted candidate did not reduce row count"
        }
        changed := true;
      } else if candidate != [] {
        ProbedRefused(h, b.Look(), table, candidate);
      }
    }
    r := Done(state);
  }

  lemma AcceptedShrinks(h: Glance, x: Glance, table: TableKey, rows: seq<RowKey>)
    requires Probed(h, x, table, rows, true)
    ensures Size(x.state) < Size(h.state)
  {
    hide Size;
  }

  // ---- one table: the loop over sizes ----

  /** Every row of `table` was tried alone in `s` and refused. */
  ghost predicate AllAlone(log: seq<Probe>, s: State, table: TableKey) {
    table in s && forall k :: k in s[table] ==> RefusedAlone(log, s, table, k)
  }

  /** Size after size: the chunks of the rows that are left then, asked for in turn. */
  ghost predicate InSizes(log: seq<Probe>, s: State, t: State, table: TableKey, sizes: seq<nat>)
    decreases |sizes|
  {
    if sizes == [] then log == [] && t == s
    else
      var n := |sizes| - 1;
      exists m: nat, mid: State ::
        && m <= |log| && table in mid && sizes[n] > 0
        && InSizes(log[..m], s, mid, table, sizes[..n])
        && InTurn(log[m..], mid, t, table, Chunks(mid[table], sizes[n]))
  }

  lemma SizesThen(a: seq<Probe>, b: seq<Probe>, s: State, mid: State, t: State, table: TableKey, sizes: seq<nat>,
                  size: nat)
    requires InSizes(a, s, mid, table, sizes) && table in mid && size > 0
    requires InTurn(b, mid, t, table, Chunks(mid[table], size))
    ensures InSizes(a + b, s, t, table, sizes + [size])
  {
    hide InTurn, Chunks;
    var log, next := a + b, sizes + [size];
    assert log[..|a|] == a && log[|a|..] == b && next[..|next| - 1] == sizes && next[|next| - 1] == size;
    assert InSizes(log[..|a|], s, mid, table, next[..|next| - 1]);
  }

  /** Table after table, each with the sizes for the rows it has when its turn comes. */
  ghost predicate InTables(log: seq<Probe>, s: State, t: State, tables: seq<TableKey>)
    decreases |tables|
  {
    if tables == [] then log == [] && t == s
    else
      var n := |tables| - 1;
      exists m: nat, mid: State ::
        && m <= |log| && tables[n] in mid
        && InTables(log[..m], s, mid, tables[..n])
        && InSizes(log[m..], mid, t, tables[n], Sizes(|mid[tables[n]]|))
  }

  lemma TablesThen(a: seq<Probe>, b: seq<Probe>, s: State, mid: State, t: State, tables: seq<TableKey>, table: TableKey)
    requires InTables(a, s, mid, tables) && table in mid && InSizes(b, mid, t, table, Sizes(|mid[table]|))
    ensures InTables(a + b, s, t, tables + [table])
  {
    hide InSizes, Sizes;
    var log, next := a + b, tables + [table];
    assert log[..|a|] == a && log[|a|..] == b && next[..|next| - 1] == tables && next[|next| - 1] == table;
    assert InTables(log[..|a|], s, mid, next[..|next| - 1]);
  }

  /** Pass after pass over all tables by name, `n` of them. */
  ghost predicate InPasses(log: seq<Probe>, s: State, t: State, n: nat)
    decreases n
  {
    if n == 0 then log == [] && t == s
    else
      exists m: nat, mid: State ::
        m <= |log| && InPasses(log[..m], s, mid, n - 1) && InTables(log[m..], mid, t, SortedKeys(mid.Keys))
  }

  lemma PassesThen(a: seq<Probe>, b: seq<Probe>, s: State, mid: State, t: State, n: nat)
    requires InPasses(a, s, mid, n) && InTables(b, mid, t, SortedKeys(mid.Keys))
    ensures InPasses(a + b, s, t, n + 1)
  {
    hide InTables;
    var log := a + b;
    assert log[..|a|] == a && log[|a|..] == b;
    assert InPasses(log[..|a|], s, mid, n + 1 - 1);
  }

  /** Where the loop over sizes stands after the first `j` of them. */
  ghost predicate Sized(g: Glance, h: Glance, table: TableKey, j: nat, changed: bool) {
    && table in g.state && Went(g, h) && j <= |Sizes(|g.state[table]|)|
    && InSizes(Since(g, h), g.state, h.state, table, Sizes(|g.state[table]|)[..j])
    && (changed <==> !AllRefused(Since(g, h)))
    && (!changed ==> h.state == g.state)
    && (!changed && j > 0 && Sizes(|g.state[table]|)[j - 1] == 1 ==> AllAlone(Since(g, h), g.state, table))
    && (NeverGrows(Since(g, h)) ==> |Since(g, h)| <= PassCost(Sizes(|g.state[table]|)[..j], |g.state[table]|))
  }

  lemma SizedStart(g: Glance, table: TableKey)
    requires table in g.state
    ensures Sized(g, g, table, 0, false)
  {
    WentRefl(g);
    hide Chain, Sizes, PassCost;
  }

  /** All chunks of one row refused: every row was tried alone. */
  lemma SinglesAlone(h: Glance, x: Glance, table: TableKey)
    requires table in h.state
    requires Chunked(h, x, table, Chunks(h.state[table], 1), |Chunks(h.state[table], 1)|, false)
    ensures AllAlone(Since(h, x), h.state, table)
  {
    hide Chain, Chunks, InTurn;
    var rows := h.state[table];
    assert Chunks(rows, 1)[..|Chunks(rows, 1)|] == Chunks(rows, 1);
    forall k | k in rows ensures RefusedAlone(Since(h, x), h.state, table, k) {
      var i: nat :| i < |rows| && rows[i] == k;
      SingleChunks(rows, i);
      assert Chunks(rows, 1)[i] == [k];
      InTurnAsked(Since(h, x), h.state, x.state, table, Chunks(rows, 1), i);
    }
  }

  lemma AloneLater(a: seq<Probe>, b: seq<Probe>, s: State, table: TableKey)
    requires AllAlone(a, s, table) || AllAlone(b, s, table)
    ensures AllAlone(a + b, s, table)
  {
    forall k | k in s[table] ensures RefusedAlone(a + b, s, table, k) {
      RefusedIn(a, b, s, table, k);
    }
  }

  lemma SizedCost(g: Glance, h: Glance, x: Glance, table: TableKey, j: nat, changed: bool, c: bool)
    requires Sized(g, h, table, j, changed) && j < |Sizes(|g.state[table]|)| && table in h.state
    requires var size := Sizes(|g.state[table]|)[j];
             size > 0 && Chunked(h, x, table, Chunks(h.state[table], size), |Chunks(h.state[table], size)|, c)
    requires Went(g, x) && Since(g, x) == Since(g, h) + Since(h, x) && NeverGrows(Since(g, x))
    ensures |Since(g, x)| <= PassCost(Sizes(|g.state[table]|)[..j + 1], |g.state[table]|)
  {
    hide Chain, Sizes, PassCost, NeverGrows, Chunks, InSizes, InTurn;
    var sizes, n := Sizes(|g.state[table]|), |g.state[table]|;
    NeverGrowsParts(Since(g, h), Since(h, x));
    NeverGrowsTable(Since(g, h), g.state, h.state, table);
    CeilDivMono(|h.state[table]|, n, sizes[j]);
    assert sizes[..j + 1] == sizes[..j] + [sizes[j]];
    PassCostSnoc(sizes[..j], sizes[j], n);
  }

  lemma ChunkedTurn(h: Glance, x: Glance, table: TableKey, size: nat, c: bool)
    requires size > 0 && table in h.state
    requires Chunked(h, x, table, Chunks(h.state[table], size), |Chunks(h.state[table], size)|, c)
    ensures InTurn(Since(h, x), h.state, x.state, table, Chunks(h.state[table], size))
  {
    hide InTurn, Chunks, Chain;
    assert Chunks(h.state[table], size)[..|Chunks(h.state[table], size)|] == Chunks(h.state[table], size);
  }

  lemma SizedNext(g: Glance, h: Glance, x: Glance, table: TableKey, j: nat, changed: bool, c: bool)
    requires Sized(g, h, table, j, changed) && j < |Sizes(|g.state[table]|)| && table in h.state
    requires var size := Sizes(|g.state[table]|)[j];
             size > 0 && Chunked(h, x, table, Chunks(h.state[table], size), |Chunks(h.state[table], size)|, c)
    ensures Sized(g, x, table, j + 1, changed || c)
  {
    hide Chain, Sizes, PassCost, NeverGrows, Chunks, InSizes, InTurn;
    WentTransitive(g, h, x);
    AllRefusedParts(Since(g, h), Since(h, x));
    ChunkedTurn(h, x, table, Sizes(|g.state[table]|)[j], c);
    SizesThen(Since(g, h), Since(h, x), g.state, h.state, x.state, table, Sizes(|g.state[table]|)[..j],
              Sizes(|g.state[table]|)[j]);
    assert Sizes(|g.state[table]|)[..j + 1] == Sizes(|g.state[table]|)[..j] + [Sizes(|g.state[table]|)[j]];
    if NeverGrows(Since(g, x)) { SizedCost(g, h, x, table, j, changed, c); }
    if !changed && !c && Sizes(|g.state[table]|)[j] == 1 {
      SinglesAlone(h, x, table);
      AloneLater(Since(g, h), Since(h, x), g.state, table);
    }
  }

  lemma SizedMeans(g: Glance, h: Glance, table: TableKey, j: nat, changed: bool)
    requires Sized(g, h, table, j, changed)
    ensures Went(g, h) && table in h.state
  {
    WentKeys(g, h);
    hide Chain, Size, Sizes, PassCost, InSizes;
  }

  /** What a whole pass over a table shows. */
  ghost predicate Swept(g: Glance, h: Glance, table: TableKey, changed: bool) {
    && table in g.state && Went(g, h)
    && InSizes(Since(g, h), g.state, h.state, table, Sizes(|g.state[table]|))
    && (changed <==> !AllRefused(Since(g, h)))
    && (!changed ==> h.state == g.state && AllAlone(Since(g, h), g.state, table))
    && (NeverGrows(Since(g, h)) ==> |Since(g, h)| <= 3 * |g.state[table]|)
  }

  lemma SizedSwept(g: Glance, h: Glance, table: TableKey, changed: bool)
    requires table in g.state && Sized(g, h, table, |Sizes(|g.state[table]|)|, changed)
    ensures Swept(g, h, table, changed)
  {
    hide Chain, NeverGrows, Went, InSizes;
    var n := |g.state[table]|;
    SizesShape(n);
    PassBound(n);
    assert Sizes(n)[..|Sizes(n)|] == Sizes(n);
  }

  method TablePass(b: Backend, table: TableKey, start: State) returns (r: Try<State>, changed: bool)
    requires b.Valid() && start == b.State() && table in start
    modifies b.Footprint()
    ensures r.Done? ==> b.Valid() && r.value == b.State() && Swept(old(b.Look()), b.Look(), table, changed)
    ensures r.KeyError? ==> !b.Look().untaken
    ensures old(b.Look()).smooth ==> r.Done? && b.Look().smooth
  {
    hide Sized, Chunks, Chunked, Sizes, Swept, Went, Deterministic, Backend.Valid, Backend.Look, Backend.State;
    LookState(b);
    ghost var g := b.Look();
    var state := start;
    var sizes := SizesOf(|state[table]|);
    SizesShape(|state[table]|);
    changed := false;
    SizedStart(g, table);
    for j := 0 to |sizes|
      invariant b.Valid() && state == b.State() && table in state
      invariant Sized(g, b.Look(), table, j, changed) && (g.smooth ==> b.Look().smooth)
    {
      LookState(b);
      ghost var h := b.Look();
      var next, c := SizePass(b, table, sizes[j], state);
      LookState(b);
      if !next.Done? {
        return next, changed;
      }
      SizedNext(g, h, b.Look(), table, j, changed, c);
      state, changed := next.value, changed || c;
      SizedMeans(g, b.Look(), table, j + 1, changed);
    }
    SizedSwept(g, b.Look(), table, changed);
    r := Done(state);
  }

  // ---- one pass over all tables ----

  /** Where the loop over the tables stands after the tables `done`. */
  ghost predicate Covered(g: Glance, h: Glance, done: seq<TableKey>, changed: bool) {
    && (forall t :: t in done ==> t in g.state) && Went(g, h)
    && InTables(Since(g, h), g.state, h.state, done)
    && (changed <==> !AllRefused(Since(g, h)))
    && (!changed ==> h.state == g.state && forall t :: t in done ==> AllAlone(Since(g, h), g.state, t))
    && (NeverGrows(Since(g, h)) ==> |Since(g, h)| <= 3 * SizeOver(done, g.state))
  }

  lemma PassStart(g: Glance)
    ensures Covered(g, g, [], false)
  {
    WentRefl(g);
    hide Chain;
  }

  lemma PassCostNext(g: Glance, h: Glance, x: Glance, done: seq<TableKey>, table: TableKey, changed: bool, c: bool)
    requires Covered(g, h, done, changed) && table in g.state && Swept(h, x, table, c)
    requires Since(g, x) == Since(g, h) + Since(h, x) && NeverGrows(Since(g, x))
    ensures |Since(g, x)| <= 3 * SizeOver(done + [table], g.state)
  {
    hide Chain, NeverGrows, InTables, InSizes, Sizes;
    NeverGrowsParts(Since(g, h), Since(h, x));
    NeverGrowsTable(Since(g, h), g.state, h.state, table);
    SizeOverSnoc(done, table, g.state);
  }

  lemma PassNext(g: Glance, h: Glance, x: Glance, done: seq<TableKey>, table: TableKey, changed: bool, c: bool)
    requires Covered(g, h, done, changed) && table in g.state && Swept(h, x, table, c)
    ensures Covered(g, x, done + [table], changed || c)
  {
    hide Chain, NeverGrows, SizeOver, AllAlone, InTables, InSizes, Sizes;
    WentTransitive(g, h, x);
    AllRefusedParts(Since(g, h), Since(h, x));
    TablesThen(Since(g, h), Since(h, x), g.state, h.state, x.state, done, table);
    if NeverGrows(Since(g, x)) { PassCostNext(g, h, x, done, table, changed, c); }
    if !changed && !c {
      forall t | t in done + [table] ensures AllAlone(Since(g, x), g.state, t) {
        AloneLater(Since(g, h), Since(h, x), g.state, t);
      }
    }
  }

  lemma PassKeys(g: Glance, h: Glance, done: seq<TableKey>, changed: bool)
    requires Covered(g, h, done, changed)
    ensures Went(g, h) && h.state.Keys == g.state.Keys
  {
    WentKeys(g, h);
    hide Chain, Size, InTables;
  }

  /** What one pass over all tables shows. */
  ghost predicate PassDone(g: Glance, h: Glance, changed: bool) {
    && Went(g, h)
    && InTables(Since(g, h), g.state, h.state, SortedKeys(g.state.Keys))
    && (changed <==> !AllRefused(Since(g, h)))
    && (!changed ==> h.state == g.state && forall t :: t in g.state ==> AllAlone(Since(g, h), g.state, t))
    && (NeverGrows(Since(g, h)) ==> |Since(g, h)| <= 3 * Size(g.state))
  }

  method Pass(b: Backend, start: State) returns (r: Try<State>, changed: bool)
    requires b.Valid() && start == b.State()
    modifies b.Footprint()
    ensures r.Done? ==> b.Valid() && r.value == b.State() && PassDone(old(b.Look()), b.Look(), changed)
    ensures r.KeyError? ==> !b.Look().untaken
    ensures old(b.Look()).smooth ==> r.Done? && b.Look().smooth
  {
    hide Swept, Went, Deterministic, Backend.Valid, Backend.Look, Backend.State, NeverGrows, AllAlone, SizeOver,
         Covered, Ascending, AllRefused, Since;
    LookState(b);
    ghost var g := b.Look();
    var state := start;
    var tables := SortedKeys(state.Keys);
    changed := false;
    PassStart(g);
    for j := 0 to |tables|
      invariant b.Valid() && state == b.State() && state.Keys == g.state.Keys
      invariant Covered(g, b.Look(), tables[..j], changed) && (g.smooth ==> b.Look().smooth)
    {
      LookState(b);
      ghost var h := b.Look();
      var next, c := TablePass(b, tables[j], state);
      LookState(b);
      if !next.Done? {
        return next, changed;
      }
      PassNext(g, h, b.Look(), tables[..j], tables[j], changed, c);
      assert tables[..j + 1] == tables[..j] + [tables[j]];
      state, changed := next.value, changed || c;
      PassKeys(g, b.Look(), tables[..j + 1], changed);
    }
    assert tables[..|tables|] == tables;
    PassFinished(g, b.Look(), tables, changed);
    r := Done(state);
  }

  lemma PassFinished(g: Glance, h: Glance, tables: seq<TableKey>, changed: bool)
    requires Covered(g, h, tables, changed) && tables == SortedKeys(g.state.Keys)
    ensures PassDone(g, h, changed)
  {
    hide Chain, NeverGrows, AllAlone, InTables;
  }

  // ---- the whole reduction ----

  /** The probes from `from` on were all refused in the final state, and among them is one for
      every remaining row alone. */
  ghost predicate Irreducible(log: seq<Probe>, from: nat, final: State) {
    && from <= |log|
    && (forall i :: from <= i < |log| ==> log[i].before == final && !log[i].answer.Accepted?)
    && forall t :: t in final ==> AllAlone(log[from..], final, t)
  }

  /** Where the outer loop stands after `passes` passes. */
  ghost predicate Looped(g: Glance, h: Glance, passes: nat, changed: bool) {
    && Went(g, h) && InPasses(Since(g, h), g.state, h.state, passes)
    && (NeverGrows(Since(g, h)) ==> |Since(g, h)| <= 3 * (Size(g.state) * passes))
    && (if changed then passes + Size(h.state) <= Size(g.state) else passes <= Size(g.state) + 1)
  }

  lemma LoopStart(g: Glance)
    ensures Looped(g, g, 0, true)
  {
    WentRefl(g);
    hide Chain, Size;
  }

  lemma OneMore(n: nat, passes: nat)
    ensures n * (passes + 1) == n * passes + n
  {
  }

  lemma LoopCost(g: Glance, h: Glance, x: Glance, passes: nat, c: bool)
    requires Looped(g, h, passes, true) && PassDone(h, x, c) && Size(h.state) <= Size(g.state)
    requires Since(g, x) == Since(g, h) + Since(h, x) && NeverGrows(Since(g, x))
    ensures |Since(g, x)| <= 3 * (Size(g.state) * (passes + 1))
  {
    hide Chain, NeverGrows, AllAlone, Size, InPasses, InTables;
    NeverGrowsParts(Since(g, h), Since(h, x));
    OneMore(Size(g.state), passes);
  }

  lemma LoopNext(g: Glance, h: Glance, x: Glance, passes: nat, c: bool)
    requires Looped(g, h, passes, true) && PassDone(h, x, c)
    ensures Looped(g, x, passes + 1, c) && |h.log| <= |x.log|
    ensures if c then Size(x.state) < Size(h.state) else x.state == h.state && Irreducible(x.log, |h.log|, x.state)
  {
    hide Chain, NeverGrows, AllAlone, Size, InPasses, InTables;
    WentKeys(g, h);
    WentKeys(h, x);
    WentTransitive(g, h, x);
    PassesThen(Since(g, h), Since(h, x), g.state, h.state, x.state, passes);
    if NeverGrows(Since(g, x)) { LoopCost(g, h, x, passes, c); }
    if !c { PassIrreducible(h, x); }
  }

  lemma PassIrreducible(h: Glance, x: Glance)
    requires PassDone(h, x, false)
    ensures Irreducible(x.log, |h.log|, x.state)
  {
    hide NeverGrows, AllAlone, Size, InTables;
    RefusedStays(Since(h, x), h.state, x.state);
    forall i | |h.log| <= i < |x.log| ensures x.log[i].before == x.state && !x.log[i].answer.Accepted? {
      assert Since(h, x)[i - |h.log|] == x.log[i];
    }
  }

  lemma LoopDone(g: Glance, h: Glance, passes: nat)
    requires Looped(g, h, passes, false)
    ensures Went(g, h) && |g.log| <= |h.log| && (h.Exact() && g.failing ==> h.failing)
    ensures h.world == g.world && h.base == g.base && InPasses(Since(g, h), g.state, h.state, passes)
    ensures NeverGrows(Since(g, h)) ==> |Since(g, h)| <= 3 * Size(g.state) * (Size(g.state) + 1)
  {
    hide Chain, NeverGrows, Size, InPasses;
    var n := Size(g.state);
    MulMono(passes, n + 1, n);
    assert passes * n == n * passes && (n + 1) * n == n * (n + 1);
    Thrice(n);
  }

  lemma Thrice(n: nat)
    ensures 3 * (n * (n + 1)) == 3 * n * (n + 1)
  {
  }

  lemma Shrunk(b: Backend, g: Glance)
    requires b.Valid() && |g.log| <= |b.Look().log|
    ensures b.Look().undisturbed && Shrinking(b.Look().world) ==> NeverGrows(Since(g, b.Look()))
  {
    hide Shrinking, Explained, Coherent, Linked, Chain, NeverGrows, Backend.Valid, Backend.Look, Reads;
    ValidAccounts(b);
    var h := b.Look();
    if h.undisturbed && Shrinking(h.world) {
      forall i | 0 <= i < |h.log| ensures Coherent(h.log[i]) { ChainCoherent(h.log, b.Initial(), h.state, i); }
      ShrinkingNeverGrows(h.world, h.calls, Since(g, h));
    }
  }

  /** Removing any single remaining row is a refused step. */
  ghost predicate OneMinimal(w: World, a: Abstract, state: State) {
    forall t, k :: t in state && k in state[t] ==> Step(w, a, t, [k]) == Some((false, a))
  }

  /** The probes of the last pass are all refused steps from the final accepted content. */
  lemma Minimality(b: Backend, from: nat)
    requires b.Valid() && Irreducible(b.Look().log, from, b.State()) && b.Look().base <= from
    ensures b.Look().Exact() ==> OneMinimal(b.Look().world, b.Look().store, b.State())
    ensures b.Look().undisturbed ==> Reads(b.Look().world.tables, b.Look().store.data, b.State())
  {
    hide Irreducible, Chain, AllExplained, Linked, Step, Deterministic, Coherent, StateOf, Reads, Backend.Valid,
         Backend.Look, Backend.State;
    ValidAccounts(b);
    var g := b.Look();
    if g.Exact() {
      forall t, k | t in g.state && k in g.state[t] ensures Step(g.world, g.store, t, [k]) == Some((false, g.store)) {
        RowRefused(g, b.Start(), b.Initial(), from, t, k);
      }
    }
  }

  lemma RowRefused(g: Glance, start: Abstract, initial: State, from: nat, t: TableKey, k: RowKey)
    requires Accounted(g, start) && g.Exact() && Chain(g.log, initial, g.state)
    requires Irreducible(g.log, from, g.state) && g.base <= from && t in g.state && k in g.state[t]
    ensures Step(g.world, g.store, t, [k]) == Some((false, g.store))
  {
    hide Chain, Linked, Step, Deterministic, Coherent, StateOf, Reads, Explained;
    assert AllAlone(g.log[from..], g.state, t);
    var i :| 0 <= i < |g.log[from..]| && g.log[from..][i].before == g.state && g.log[from..][i].table == t
      && g.log[from..][i].rows == [k] && !g.log[from..][i].answer.Accepted?;
    var tail, n := g.log[g.base..], from - g.base;
    forall j | 0 <= j < |tail| ensures Coherent(tail[j]) { ChainCoherent(g.log, initial, g.state, g.base + j); }
    assert forall j :: n <= j < |tail| ==> tail[j] == g.log[g.base + j];
    assert tail[n + i] == g.log[from + i] == g.log[from..][i];
    RefusedFromHere(g.world, g.calls, tail, n, start, g.store, n + i);
  }

  /** `reduce`. On a normal return every remaining row was tried alone in the final state and
      refused, and if nothing disturbed a deterministic world, removing any of them is a refused
      step from the final content; a failing initial state leaves a failing final one; and a backend whose tables
      never grow is asked at most 3N(N + 1) times for N rows. The row lookups of an attempt
      fail only if somebody took a name, and where nothing goes wrong `reduce` returns. */
  method Reduce(b: Backend) returns (r: Try<State>, ghost from: nat)
    requires b.Valid()
    modifies b.Footprint()
    ensures r.Done? ==> b.Valid() && r.value == b.State() && Went(old(b.Look()), b.Look())
    ensures r.Done? ==> exists n :: InPasses(Since(old(b.Look()), b.Look()), old(b.State()), r.value, n)
    ensures r.Done? ==> Irreducible(b.Look().log, from, r.value) && b.Look().base <= from
    ensures r.Done? && b.Look().Exact() ==>
      OneMinimal(b.Look().world, b.Look().store, r.value) && (old(b.Look()).failing ==> b.Look().failing)
    ensures r.Done? && b.Look().undisturbed ==> Reads(b.Look().world.tables, b.Look().store.data, r.value)
    ensures r.Done? && NeverGrows(Since(old(b.Look()), b.Look())) ==>
      |Since(old(b.Look()), b.Look())| <= 3 * Size(old(b.State())) * (Size(old(b.State())) + 1)
    ensures r.Done? && b.Look().undisturbed && Shrinking(b.Look().world) ==>
      |Since(old(b.Look()), b.Look())| <= 3 * Size(old(b.State())) * (Size(old(b.State())) + 1)
    ensures r.KeyError? ==> !b.Look().untaken
    ensures old(b.Look()).smooth ==> r.Done? && b.Look().smooth
  {
    hide Shrinking, AllExplained, Linked, OneMinimal, Reads, Went, Deterministic, Backend.Valid, Backend.Look,
         Backend.State, NeverGrows, AllAlone, Size, PassDone, InPasses;
    LookState(b);
    ValidAccounts(b);
    ghost var g := b.Look();
    from := |g.log|;
    var state := b.State();
    var changed := true;
    ghost var passes := 0;
    LoopStart(g);
    while changed
      invariant b.Valid() && state == b.State() && |g.log| <= from <= |b.Look().log|
      invariant Looped(g, b.Look(), passes, changed) && (g.smooth ==> b.Look().smooth)
      invariant !changed ==> Irreducible(b.Look().log, from, state)
      decreases Size(state), changed
    {
      LookState(b);
      ghost var h := b.Look();
      changed := false;
      from := |h.log|;
      var next, c := Pass(b, state);
      LookState(b);
      if !next.Done? {
        return next, from;
      }
      LoopNext(g, h, b.Look(), passes, c);
      state, changed, passes := next.value, c, passes + 1;
    }
    LookState(b);
    LoopDone(g, b.Look(), passes);
    Minimality(b, from);
    Shrunk(b, g);
    r := Done(state);
  }

  // ---- the irreducibility claim (cli/__init__.py) ----

  /** A refusal that says nothing against the claim: the failure was not reproduced, the server
      refused the deletion, or no row went. */
  predicate Genuine(a: Answer) {
    a.NoShrink? || a.ConstraintRefused? || a.TriggerRefused? || (a.OracleRefused? && a.outcome.NotReproduced?)
  }

  lemma {:induction false} ChainCoherent(log: seq<Probe>, s: State, t: State, i: nat)
    requires Chain(log, s, t) && i < |log|
    ensures Coherent(log[i])
    decreases |log|
  {
    hide Coherent;
    var n := |log| - 1;
    if i < n { ChainCoherent(log[..n], s, log[n].before, i); }
  }

  /** The oracle ran on `c`, or on a content with its digest, and the failure was not reproduced. */
  ghost predicate Disappeared(w: World, calls: seq<Call>, c: Content) {
    exists judged :: Ran(calls, judged, NotReproduced) && w.digest(judged) == w.digest(c)
  }

  /** Deletion number `i` of row `k` alone from `data`: the server refused it, no row went, or
      what it left does not show the failure. */
  ghost predicate Refuted(w: World, calls: seq<Call>, i: nat, data: Content, state: State, table: TableKey, k: RowKey) {
    match w.deletion(i, data, table, [k])
    case ConstraintViolated => true
    case RaisedByTrigger => true
    case Broke(_) => false
    case Left(c) =>
      w.tables <= c.rows.Keys && (Size(StateOf(w.tables, c)) >= Size(state) || Disappeared(w, calls, c))
  }

  /** Row `k` was tried alone in the final state and genuinely refused. */
  ghost predicate GenuinelyRefused(g: Glance, from: nat, table: TableKey, k: RowKey) {
    exists i ::
      && from <= i < |g.log| && g.log[i].before == g.state && g.log[i].table == table && g.log[i].rows == [k]
      && Genuine(g.log[i].answer)
      && (g.undisturbed ==> g.log[i].store.data == g.store.data
                            && Refuted(g.world, g.calls, g.log[i].index, g.store.data, g.state, table, k))
  }

  /** If no candidate-invalid and no different-failure outcome was ever counted, every remaining
      row was genuinely refused in the final state, refusals served from the cache included. */
  lemma ClaimIsSound(g: Glance, start: Abstract, initial: State, from: nat, outcomes: map<Outcome, nat>,
                     table: TableKey, k: RowKey)
    requires Accounted(g, start) && Chain(g.log, initial, g.state) && Tallied(g.log, outcomes)
    requires Irreducible(g.log, from, g.state) && g.base <= from && table in g.state && k in g.state[table]
    requires Tally(outcomes, CandidateInvalid) == 0 && Tally(outcomes, DifferentFailure) == 0
    ensures GenuinelyRefused(g, from, table, k)
  {
    hide Chain, Linked, Explained, AllExplained, Reads, Refuted, Deterministic, Coherent;
    assert AllAlone(g.log[from..], g.state, table);
    var i :| 0 <= i < |g.log[from..]| && g.log[from..][i].before == g.state && g.log[from..][i].table == table
      && g.log[from..][i].rows == [k] && !g.log[from..][i].answer.Accepted?;
    var p := g.log[from + i];
    assert g.log[from..][i] == p;
    ChainCoherent(g.log, initial, g.state, from + i);
    RefusedGenuinely(p, outcomes, g.log, from + i);
    if g.undisturbed {
      RefusedAtFinal(g, start, from, from + i);
      GenuineRefutes(g.world, g.calls, p, g.state);
    }
  }

  lemma RefusedGenuinely(p: Probe, outcomes: map<Outcome, nat>, log: seq<Probe>, i: nat)
    requires Tallied(log, outcomes) && i < |log| && log[i] == p && Coherent(p) && !p.answer.Accepted?
    requires Tally(outcomes, CandidateInvalid) == 0 && Tally(outcomes, DifferentFailure) == 0
    ensures Genuine(p.answer)
  {
    hide Size;
  }

  /** What is refused to the end was tried on the final content. */
  lemma RefusedAtFinal(g: Glance, start: Abstract, from: nat, i: nat)
    requires Accounted(g, start) && g.undisturbed && g.base <= from <= i < |g.log|
    requires forall j :: from <= j < |g.log| ==> !g.log[j].answer.Accepted?
    ensures g.log[i].store.data == g.store.data && Explained(g.world, g.calls, g.log[i])
  {
    hide Linked, Explained, Reads, Deterministic;
    var tail, n := g.log[g.base..], from - g.base;
    assert forall j :: n <= j < |tail| ==> tail[j] == g.log[g.base + j];
    assert tail[i - g.base] == g.log[i];
    RefusedSameData(g.world, g.calls, tail, n, start, g.store, i - g.base);
  }

  lemma GenuineRefutes(w: World, calls: seq<Call>, p: Probe, state: State)
    requires Explained(w, calls, p) && Coherent(p) && Genuine(p.answer) && p.before == state && |p.rows| == 1
    ensures Refuted(w, calls, p.index, p.store.data, state, p.table, p.rows[0])
  {
    hide StateOf, Size, Ran, Told, Present, Deterministic;
    assert p.rows == [p.rows[0]];
  }

  /** `data_minimality["locally_irreducible"]` */
  method LocallyIrreducible(b: Backend, ghost from: nat) returns (claim: bool)
    requires b.Valid() && Irreducible(b.Look().log, from, b.State()) && b.Look().base <= from
    ensures claim <==> Tally(b.Outcomes(), CandidateInvalid) == 0 && Tally(b.Outcomes(), DifferentFailure) == 0
    ensures claim ==> forall t, k :: t in b.State() && k in b.State()[t] ==> GenuinelyRefused(b.Look(), from, t, k)
  {
    hide Irreducible, GenuinelyRefused, Chain, Tallied, Accounted, Backend.Look, Backend.Valid;
    claim := Tally(b.Outcomes(), CandidateInvalid) == 0 && Tally(b.Outcomes(), DifferentFailure) == 0;
    if claim {
      ValidAccounts(b);
      forall t, k | t in b.State() && k in b.State()[t] ensures GenuinelyRefused(b.Look(), from, t, k) {
        ClaimIsSound(b.Look(), b.Start(), b.Initial(), from, b.Outcomes(), t, k);
      }
    }
  }
}
