/** Fingerprint of a plain-format dump (cache/store.py): the schema and sequence statements
    in order, the COPY rows of each block as a multiset. */
module Fingerprint {
  import opened Ordering

  type Line = seq<byte>

  const LF: byte := 10
  const CR: byte := 13
  /** "COPY " */
  const COPY: Line := [67, 79, 80, 89, 32]
  /** " FROM stdin;" */
  const FROM_STDIN: Line := [32, 70, 82, 79, 77, 32, 115, 116, 100, 105, 110, 59]
  /** "\." */
  const END_OF_ROWS: Line := [92, 46]

  // ---- lines of a file ----

  /** The length of the first line, its newline included. */
  function FirstLine(file: seq<byte>): (n: nat)
    requires file != []
    ensures 0 < n <= |file|
    ensures forall i :: 0 <= i < n - 1 ==> file[i] != LF
    ensures n < |file| ==> file[n - 1] == LF
  {
    if file[0] == LF || |file| == 1 then 1 else 1 + FirstLine(file[1..])
  }

  function Lines(file: seq<byte>): (lines: seq<Line>)
    decreases |file|
  {
    if file == [] then [] else [file[..FirstLine(file)]] + Lines(file[FirstLine(file)..])
  }

  function Concat(lines: seq<Line>): seq<byte> {
    if lines == [] then [] else lines[0] + Concat(lines[1..])
  }

  /** A line as a stream yields it: at most one newline, at its end. */
  ghost predicate IsLine(line: Line) {
    line != [] && forall i :: 0 <= i < |line| - 1 ==> line[i] != LF
  }

  ghost predicate Ended(line: Line) {
    IsLine(line) && line[|line| - 1] == LF
  }

  /** Lines of one file: only the last may lack its newline. */
  ghost predicate WellSplit(lines: seq<Line>) {
    && (forall i :: 0 <= i < |lines| ==> IsLine(lines[i]))
    && (forall i :: 0 <= i < |lines| - 1 ==> Ended(lines[i]))
  }

  lemma {:induction false} LinesWellSplit(file: seq<byte>)
    ensures WellSplit(Lines(file)) && Concat(Lines(file)) == file
    decreases |file|
  {
    if file != [] {
      var n := FirstLine(file);
      LinesWellSplit(file[n..]);
      var rest := Lines(file[n..]);
      assert Lines(file) == [file[..n]] + rest;
      assert file == file[..n] + file[n..];
      assert n == |file| ==> file[n..] == [] && rest == [];
      FirstLineAhead(file[..n], rest, n < |file|);
    }
  }

  lemma FirstLineAhead(line: Line, rest: seq<Line>, more: bool)
    requires WellSplit(rest) && IsLine(line) && (more ==> Ended(line)) && (!more ==> rest == [])
    ensures WellSplit([line] + rest) && Concat([line] + rest) == line + Concat(rest)
  {
    assert ([line] + rest)[1..] == rest;
  }

  lemma {:induction false} FirstLineIs(file: seq<byte>, n: nat)
    requires 0 < n <= |file|
    requires forall i :: 0 <= i < n - 1 ==> file[i] != LF
    requires file[n - 1] == LF || n == |file|
    ensures FirstLine(file) == n
  {
    if n > 1 { FirstLineIs(file[1..], n - 1); }
  }

  /** Splitting undoes joining, so the bytes of a file determine its lines. */
  lemma {:induction false} SplitJoin(a: seq<Line>)
    requires WellSplit(a)
    ensures Lines(Concat(a)) == a
    decreases |a|
  {
    if a != [] {
      var file := Concat(a);
      assert file == a[0] + Concat(a[1..]);
      assert |a| == 1 ==> Concat(a[1..]) == [];
      FirstLineIs(file, |a[0]|);
      assert file[..|a[0]|] == a[0] && file[|a[0]|..] == Concat(a[1..]);
      SplitJoin(a[1..]);
    }
  }

  // ---- COPY blocks ----

  function RightStripped(line: Line): Line {
    if line != [] && (line[|line| - 1] == LF || line[|line| - 1] == CR)
    then RightStripped(line[..|line| - 1]) else line
  }

  predicate StartsCopy(line: Line) {
    var s := RightStripped(line);
    COPY <= line && |s| >= |FROM_STDIN| && s[|s| - |FROM_STDIN|..] == FROM_STDIN
  }

  predicate EndsCopy(line: Line) {
    RightStripped(line) == END_OF_ROWS
  }

  predicate LineLeq(a: Line, b: Line) {
    TextLeq(a, b)
  }

  lemma LineOrder()
    ensures TotalOrder(LineLeq)
  {
    forall a: Line, b: Line ensures LineLeq(a, b) || LineLeq(b, a) { TextLeqTotal(a, b); }
    forall a: Line, b: Line | LineLeq(a, b) && LineLeq(b, a) ensures a == b { TextLeqTotal(a, b); }
    forall a: Line, b: Line, c: Line | LineLeq(a, b) && LineLeq(b, c) ensures LineLeq(a, c) {
      TextLeqTransitive(a, b, c);
    }
  }

  /** `sorted(rows)` */
  function SortedRows(rows: seq<Line>): (r: seq<Line>)
    ensures multiset(r) == multiset(rows) && |r| == |rows|
  {
    Sort(LineLeq, rows)
  }

  lemma SortedRowsCanonical(a: seq<Line>, b: seq<Line>)
    ensures SortedRows(a) == SortedRows(b) <==> multiset(a) == multiset(b)
  {
    LineOrder();
    SortCanonical(LineLeq, a, b);
  }

  /** How many lines come before the first end-of-rows line (all of them if there is none). */
  function RowCount(lines: seq<Line>): (n: nat)
    ensures n <= |lines|
    ensures forall i :: 0 <= i < n ==> !EndsCopy(lines[i])
    ensures n < |lines| ==> EndsCopy(lines[n])
  {
    if lines == [] || EndsCopy(lines[0]) then 0 else 1 + RowCount(lines[1..])
  }

  ghost predicate Terminated(lines: seq<Line>)
    decreases |lines|
  {
    if lines == [] then true
    else if !StartsCopy(lines[0]) then Terminated(lines[1..])
    else
      var n := RowCount(lines[1..]);
      n + 1 < |lines| && Terminated(lines[n + 2..])
  }

  /** The lines `fingerprint` feeds to the digest. Without an end-of-rows line it feeds the
      last line it read a second time. */
  function Canon(lines: seq<Line>): seq<Line>
    decreases |lines|
  {
    if lines == [] then []
    else if !StartsCopy(lines[0]) then [lines[0]] + Canon(lines[1..])
    else
      var n := RowCount(lines[1..]);
      [lines[0]] + SortedRows(lines[1..n + 1]) +
      (if n + 1 < |lines| then [lines[n + 1]] + Canon(lines[n + 2..]) else [lines[|lines| - 1]])
  }

  /** Two files agree line by line, up to the order of the rows inside each COPY block. */
  ghost predicate Agree(a: seq<Line>, b: seq<Line>)
    decreases |a|
  {
    if a == [] || b == [] then a == b
    else if a[0] != b[0] then false
    else if !StartsCopy(a[0]) then Agree(a[1..], b[1..])
    else
      var n, m := RowCount(a[1..]), RowCount(b[1..]);
      && multiset(a[1..n + 1]) == multiset(b[1..m + 1])
      && (n + 1 < |a| <==> m + 1 < |b|)
      && (n + 1 < |a| ==> a[n + 1] == b[m + 1] && Agree(a[n + 2..], b[m + 2..]))
  }

  lemma RowCountIs(lines: seq<Line>, n: nat)
    requires n < |lines| && EndsCopy(lines[n])
    requires forall i :: 0 <= i < n ==> !EndsCopy(lines[i])
    ensures RowCount(lines) == n
  {
  }

  lemma BlockSlices(header: Line, rows: seq<Line>, end: Line, tail: seq<Line>)
    ensures var c := [header] + rows + ([end] + tail); var n := |rows|;
            && c[0] == header && c[1..n + 1] == rows && c[n + 1] == end && c[n + 2..] == tail
            && c[1..] == rows + [end] + tail
  {
  }

  ghost predicate Block(lines: seq<Line>, n: nat) {
    && n + 2 <= |lines| && StartsCopy(lines[0]) && RowCount(lines[1..]) == n
  }

  lemma SortedRowsCount(rows: seq<Line>, end: Line, tail: seq<Line>)
    requires EndsCopy(end) && forall i :: 0 <= i < |rows| ==> !EndsCopy(rows[i])
    ensures RowCount(SortedRows(rows) + [end] + tail) == |rows|
  {
    var sorted := SortedRows(rows);
    forall i | 0 <= i < |rows| ensures !EndsCopy(sorted[i]) {
      assert sorted[i] in multiset(sorted);
      assert sorted[i] in rows;
    }
    RowCountIs(sorted + [end] + tail, |rows|);
  }

  /** The canonical form of a terminated COPY block has its rows and its end in the same places. */
  lemma CanonBlock(lines: seq<Line>, n: nat)
    requires Block(lines, n)
    ensures var c := Canon(lines);
            && Block(c, n) && c[0] == lines[0]
            && c[1..n + 1] == SortedRows(lines[1..n + 1])
            && c[n + 1] == lines[n + 1] && c[n + 2..] == Canon(lines[n + 2..])
  {
    var rows, end, tail := lines[1..n + 1], lines[n + 1], Canon(lines[n + 2..]);
    assert Canon(lines) == [lines[0]] + SortedRows(rows) + ([end] + tail);
    RowsBeforeEnd(lines, n);
    hide Canon, EndsCopy, StartsCopy, SortedRows, RowCount;
    BlockSlices(lines[0], SortedRows(rows), end, tail);
    SortedRowsCount(rows, end, tail);
  }

  lemma RowsBeforeEnd(lines: seq<Line>, n: nat)
    requires Block(lines, n)
    ensures var rows := lines[1..n + 1];
            EndsCopy(lines[n + 1]) && forall i :: 0 <= i < n ==> !EndsCopy(rows[i])
  {
    hide EndsCopy, StartsCopy;
    var rows := lines[1..n + 1];
    assert lines[1..][n] == lines[n + 1];
    assert forall i :: 0 <= i < n ==> rows[i] == lines[1..][i];
  }

  lemma {:induction false} CanonEqual(a: seq<Line>, b: seq<Line>)
    requires Terminated(a) && Terminated(b)
    ensures Canon(a) == Canon(b) <==> Agree(a, b)
    decreases |a|
  {
    if a != [] && b != [] {
      assert Canon(a)[0] == a[0] && Canon(b)[0] == b[0];
      if a[0] == b[0] {
        if !StartsCopy(a[0]) {
          assert Canon(a)[1..] == Canon(a[1..]) && Canon(b)[1..] == Canon(b[1..]);
          assert Canon(a) == [a[0]] + Canon(a[1..]) && Canon(b) == [b[0]] + Canon(b[1..]);
          CanonEqual(a[1..], b[1..]);
        } else {
          var n, m := RowCount(a[1..]), RowCount(b[1..]);
          CanonEqual(a[n + 2..], b[m + 2..]);
          CanonEqualBlock(a, b, n, m);
        }
      }
    }
  }

  lemma CanonEqualBlock(a: seq<Line>, b: seq<Line>, n: nat, m: nat)
    requires Block(a, n) && Block(b, m) && a[0] == b[0]
    ensures Canon(a) == Canon(b) <==>
      && multiset(a[1..n + 1]) == multiset(b[1..m + 1]) && a[n + 1] == b[m + 1]
      && Canon(a[n + 2..]) == Canon(b[m + 2..])
  {
    CanonBlock(a, n);
    CanonBlock(b, m);
    SortedRowsCanonical(a[1..n + 1], b[1..m + 1]);
    if multiset(a[1..n + 1]) == multiset(b[1..m + 1]) {
      assert n == |multiset(a[1..n + 1])| == |multiset(b[1..m + 1])| == m;
      if a[n + 1] == b[m + 1] && Canon(a[n + 2..]) == Canon(b[m + 2..]) {
        BlockEqual(Canon(a), Canon(b), n);
      }
    }
  }

  lemma BlockEqual(x: seq<Line>, y: seq<Line>, n: nat)
    requires n + 2 <= |x| && n + 2 <= |y|
    requires x[0] == y[0] && x[1..n + 1] == y[1..n + 1] && x[n + 1] == y[n + 1] && x[n + 2..] == y[n + 2..]
    ensures x == y
  {
    assert x == [x[0]] + x[1..n + 1] + [x[n + 1]] + x[n + 2..];
    assert y == [y[0]] + y[1..n + 1] + [y[n + 1]] + y[n + 2..];
  }

  /** Canonicalising twice is canonicalising once. */
  lemma {:induction false} CanonIdempotent(lines: seq<Line>)
    requires Terminated(lines)
    ensures Terminated(Canon(lines)) && Canon(Canon(lines)) == Canon(lines)
    decreases |lines|
  {
    if lines != [] {
      var c := Canon(lines);
      assert c[0] == lines[0];
      if !StartsCopy(lines[0]) {
        assert c[1..] == Canon(lines[1..]);
        CanonIdempotent(lines[1..]);
      } else {
        var n := RowCount(lines[1..]);
        CanonBlock(lines, n);
        CanonIdempotent(lines[n + 2..]);
        CanonBlock(c, n);
        SortTwice(lines[1..n + 1]);
        BlockEqual(Canon(c), c, n);
      }
    }
  }

  lemma SortTwice(rows: seq<Line>)
    ensures SortedRows(SortedRows(rows)) == SortedRows(rows)
  {
    SortedRowsCanonical(SortedRows(rows), rows);
  }

  lemma EndedThenSplit(x: seq<Line>, y: seq<Line>)
    requires (forall i :: 0 <= i < |x| ==> Ended(x[i])) && WellSplit(y)
    ensures WellSplit(x + y)
  {
  }

  lemma {:induction false} CanonWellSplit(lines: seq<Line>)
    requires Terminated(lines) && WellSplit(lines)
    ensures WellSplit(Canon(lines)) && |Canon(lines)| == |lines|
    decreases |lines|
  {
    if lines != [] {
      if !StartsCopy(lines[0]) {
        CanonWellSplit(lines[1..]);
        assert Canon(lines) == [lines[0]] + Canon(lines[1..]);
        if |lines| > 1 { EndedThenSplit([lines[0]], Canon(lines[1..])); }
      } else {
        var n := RowCount(lines[1..]);
        CanonWellSplit(lines[n + 2..]);
        BlockWellSplit(lines, n);
      }
    }
  }

  lemma BlockWellSplit(lines: seq<Line>, n: nat)
    requires Block(lines, n) && WellSplit(lines)
    requires WellSplit(Canon(lines[n + 2..])) && |Canon(lines[n + 2..])| == |lines[n + 2..]|
    ensures WellSplit(Canon(lines)) && |Canon(lines)| == |lines|
  {
    var rows, end, tail := lines[1..n + 1], lines[n + 1], Canon(lines[n + 2..]);
    forall i | 0 <= i < n ensures Ended(rows[i]) { assert rows[i] == lines[i + 1]; }
    SortedEnded(rows);
    EndWellSplit(end, tail, lines[n + 2..]);
    EndedThenSplit([lines[0]] + SortedRows(rows), [end] + tail);
    assert Canon(lines) == ([lines[0]] + SortedRows(rows)) + ([end] + tail);
  }

  lemma EndWellSplit(end: Line, tail: seq<Line>, rest: seq<Line>)
    requires WellSplit(tail) && |tail| == |rest| && IsLine(end) && (rest != [] ==> Ended(end))
    ensures WellSplit([end] + tail)
  {
    if tail != [] { EndedThenSplit([end], tail); } else { assert [end] + tail == [end]; }
  }

  lemma SortedEnded(rows: seq<Line>)
    requires forall i :: 0 <= i < |rows| ==> Ended(rows[i])
    ensures forall i :: 0 <= i < |rows| ==> Ended(SortedRows(rows)[i])
  {
    var sorted := SortedRows(rows);
    forall i | 0 <= i < |rows| ensures Ended(sorted[i]) {
      assert sorted[i] in multiset(sorted);
      assert sorted[i] in rows;
    }
  }

  /** The bytes hashed for a file. */
  function Hashed(file: seq<byte>): seq<byte> {
    Concat(Canon(Lines(file)))
  }

  /** For dumps whose COPY blocks are all terminated, the digest input is the same exactly
      when the files agree line by line up to row order inside each COPY block. */
  lemma FingerprintExact(f: seq<byte>, g: seq<byte>)
    requires Terminated(Lines(f)) && Terminated(Lines(g))
    ensures Hashed(f) == Hashed(g) <==> Agree(Lines(f), Lines(g))
  {
    LinesWellSplit(f);
    LinesWellSplit(g);
    CanonWellSplit(Lines(f));
    CanonWellSplit(Lines(g));
    CanonEqual(Lines(f), Lines(g));
    SplitJoin(Canon(Lines(f)));
    SplitJoin(Canon(Lines(g)));
  }

  // ---- dumps by their structure ----

  function Ascii(text: string): Line {
    seq(|text|, i requires 0 <= i < |text| => if text[i] < 128 as char then text[i] as int else 63)
  }

  /** A statement line, or a COPY block: what stands between "COPY " and " FROM stdin;", and
      the rows; without line ends. */
  datatype Part = Plain(text: Line) | CopyBlock(what: Line, rows: seq<Line>)

  function Header(what: Line): Line {
    Ascii("COPY ") + what + Ascii(" FROM stdin;")
  }

  /** Every row as a line. */
  function RowLines(rows: seq<Line>, end: Line): (lines: seq<Line>)
    ensures |lines| == |rows| && forall i :: 0 <= i < |rows| ==> lines[i] == rows[i] + end
  {
    seq(|rows|, i requires 0 <= i < |rows| => rows[i] + end)
  }

  function PartLines(p: Part, end: Line): seq<Line> {
    match p
    case Plain(text) => [text + end]
    case CopyBlock(what, rows) => [Header(what) + end] + RowLines(rows, end) + [Ascii("\\.") + end]
  }

  function DumpLines(parts: seq<Part>, end: Line): seq<Line> {
    if parts == [] then [] else PartLines(parts[0], end) + DumpLines(parts[1..], end)
  }

  /** The bytes of a dump whose lines all end in `end`. */
  function Printed(parts: seq<Part>, end: Line): seq<byte> {
    Concat(DumpLines(parts, end))
  }

  /** One line: no line feed in it, no carriage return at its end. */
  ghost predicate OneLine(text: Line) {
    (forall i :: 0 <= i < |text| ==> text[i] != 10) && (text != [] ==> text[|text| - 1] != 13)
  }

  /** A statement is not a COPY header, and no row is an end-of-rows line. */
  ghost predicate Proper(p: Part) {
    match p
    case Plain(text) =>
      OneLine(text) && !(Ascii("COPY ") <= text && EndsWith(text, Ascii(" FROM stdin;")))
    case CopyBlock(what, rows) =>
      (forall i :: 0 <= i < |what| ==> what[i] != 10) && forall r :: r in rows ==> OneLine(r) && r != Ascii("\\.")
  }

  ghost predicate EndsWith(text: Line, end: Line) {
    |end| <= |text| && text[|text| - |end|..] == end
  }

  /** The same statements and headers in the same order, and in each block the same rows,
      counting duplicates. */
  ghost predicate SameParts(a: seq<Part>, b: seq<Part>) {
    && |a| == |b|
    && forall i :: 0 <= i < |a| ==>
         match a[i]
         case Plain(text) => b[i] == a[i]
         case CopyBlock(what, rows) => b[i].CopyBlock? && b[i].what == what && multiset(b[i].rows) == multiset(rows)
  }

  ghost predicate LineEnd(end: Line) {
    end == [10] || end == [13, 10]
  }

  lemma AsciiIs()
    ensures Ascii("COPY ") == COPY && Ascii(" FROM stdin;") == FROM_STDIN && Ascii("\\.") == END_OF_ROWS
  {
    var a, b, c := "COPY ", " FROM stdin;", "\\.";
    assert a[0] == 'C' && a[1] == 'O' && a[2] == 'P' && a[3] == 'Y' && a[4] == ' ';
    assert b[0] == ' ' && b[1] == 'F' && b[2] == 'R' && b[3] == 'O' && b[4] == 'M' && b[5] == ' ';
    assert b[6] == 's' && b[7] == 't' && b[8] == 'd' && b[9] == 'i' && b[10] == 'n' && b[11] == ';';
    assert c[0] == '\\' && c[1] == '.';
  }

  lemma StrippedIs(text: Line, end: Line)
    requires LineEnd(end) && (text == [] || (text[|text| - 1] != 10 && text[|text| - 1] != 13))
    ensures RightStripped(text + end) == text
  {
    if end == [13, 10] {
      var line := text + end;
      assert line[..|line| - 1] == text + [13];
      StripOne(line);
      StripOne(text + [13]);
      assert (text + [13])[..|text|] == text;
    } else {
      StripOne(text + end);
      assert (text + end)[..|text|] == text;
    }
  }

  lemma StripOne(line: Line)
    requires line != [] && (line[|line| - 1] == 10 || line[|line| - 1] == 13)
    ensures RightStripped(line) == RightStripped(line[..|line| - 1])
  {
  }

  lemma CopyHasNoEnd(text: Line, end: Line)
    requires LineEnd(end) && COPY <= text + end
    ensures |text| >= 5
  {
    var line := text + end;
    assert forall i :: 0 <= i < 5 ==> line[i] != 10 && line[i] != 13;
    assert line[|text|] == 10 || line[|text|] == 13;
  }

  lemma StartsIff(text: Line, end: Line)
    requires LineEnd(end) && OneLine(text)
    ensures StartsCopy(text + end) <==> Ascii("COPY ") <= text && EndsWith(text, Ascii(" FROM stdin;"))
    ensures EndsCopy(text + end) <==> text == Ascii("\\.")
  {
    AsciiIs();
    StrippedIs(text, end);
    var line := text + end;
    if COPY <= line {
      CopyHasNoEnd(text, end);
      assert text[..5] == line[..5];
    }
    if COPY <= text { assert line[..5] == text[..5]; }
  }

  lemma HeaderStarts(what: Line, end: Line)
    requires LineEnd(end) && forall i :: 0 <= i < |what| ==> what[i] != 10
    ensures OneLine(Header(what)) && StartsCopy(Header(what) + end)
  {
    AsciiIs();
    var h := Header(what);
    assert h[|h| - 12..] == FROM_STDIN && h[..5] == COPY;
    StartsIff(h, end);
  }

  lemma {:induction false} RowCounts(rows: seq<Line>, end: Line, r: Line)
    ensures multiset(RowLines(rows, end))[r + end] == multiset(rows)[r]
  {
    if rows != [] {
      RowCounts(rows[1..], end, r);
      assert rows == [rows[0]] + rows[1..];
      assert RowLines(rows, end) == [rows[0] + end] + RowLines(rows[1..], end);
      assert rows[0] + end == r + end ==>
        rows[0] == (rows[0] + end)[..|rows[0]|] && |rows[0]| == |r| && r == (r + end)[..|r|];
    }
  }

  lemma SameRowLines(a: seq<Line>, b: seq<Line>, end: Line)
    ensures multiset(RowLines(a, end)) == multiset(RowLines(b, end)) <==> multiset(a) == multiset(b)
  {
    var x, y := multiset(RowLines(a, end)), multiset(RowLines(b, end));
    if x == y {
      forall r ensures multiset(a)[r] == multiset(b)[r] {
        RowCounts(a, end, r);
        RowCounts(b, end, r);
      }
    }
    if multiset(a) == multiset(b) {
      forall line ensures x[line] == y[line] {
        if line in x || line in y {
          var r: Line :| line == r + end;
          RowCounts(a, end, r);
          RowCounts(b, end, r);
        }
      }
    }
  }

  ghost predicate AllProper(parts: seq<Part>) {
    forall i :: 0 <= i < |parts| ==> Proper(parts[i])
  }

  /** Where the lines of a block and of what follows it are. */
  lemma BlockLines(what: Line, rows: seq<Line>, end: Line, rest: seq<Line>)
    requires LineEnd(end) && Proper(CopyBlock(what, rows))
    ensures var lines, n := PartLines(CopyBlock(what, rows), end) + rest, |rows|;
            && n + 2 <= |lines| && lines[0] == Header(what) + end && StartsCopy(lines[0]) && RowCount(lines[1..]) == n
            && lines[1..n + 1] == RowLines(rows, end)
            && lines[n + 1] == Ascii("\\.") + end && lines[n + 2..] == rest
  {
    hide StartsCopy, EndsCopy, Header, Ascii;
    var h, mid, last, n := Header(what) + end, RowLines(rows, end), Ascii("\\.") + end, |rows|;
    var lines := PartLines(CopyBlock(what, rows), end) + rest;
    assert lines == [h] + mid + ([last] + rest);
    HeaderStarts(what, end);
    EndOfRowsEnds(end);
    forall i | 0 <= i < n ensures !EndsCopy(mid[i]) {
      assert rows[i] in rows;
      StartsIff(rows[i], end);
    }
    BlockSlices(h, mid, last, rest);
    RowsThenEnd(mid, last, rest);
  }

  lemma RowsThenEnd(rows: seq<Line>, last: Line, rest: seq<Line>)
    requires EndsCopy(last) && forall i :: 0 <= i < |rows| ==> !EndsCopy(rows[i])
    ensures RowCount(rows + [last] + rest) == |rows|
  {
    hide EndsCopy;
    RowCountIs(rows + [last] + rest, |rows|);
  }

  lemma EndOfRowsEnds(end: Line)
    requires LineEnd(end)
    ensures EndsCopy(Ascii("\\.") + end)
  {
    AsciiIs();
    StrippedIs(END_OF_ROWS, end);
  }

  lemma {:induction false} DumpSplits(parts: seq<Part>, end: Line)
    requires LineEnd(end) && AllProper(parts)
    ensures forall i :: 0 <= i < |DumpLines(parts, end)| ==> Ended(DumpLines(parts, end)[i])
    ensures Terminated(DumpLines(parts, end))
  {
    hide StartsCopy, EndsCopy, Header, Ascii, RightStripped;
    if parts != [] {
      var rest := DumpLines(parts[1..], end);
      DumpSplits(parts[1..], end);
      var lines := DumpLines(parts, end);
      PartEnded(parts[0], end);
      match parts[0] {
        case Plain(text) =>
          StartsIff(text, end);
          assert lines[1..] == rest;
        case CopyBlock(what, rows) => BlockLines(what, rows, end, rest);
      }
    }
  }

  lemma PartEnded(p: Part, end: Line)
    requires LineEnd(end) && Proper(p)
    ensures forall i :: 0 <= i < |PartLines(p, end)| ==> Ended(PartLines(p, end)[i])
  {
    match p {
      case Plain(text) => LineEnded(text, end);
      case CopyBlock(what, rows) =>
        AsciiIs();
        HeaderStarts(what, end);
        LineEnded(Header(what), end);
        LineEnded(Ascii("\\."), end);
        forall i | 0 <= i < |rows| ensures Ended(RowLines(rows, end)[i]) {
          assert rows[i] in rows;
          LineEnded(rows[i], end);
        }
        hide Header, StartsCopy, Ascii, OneLine, Ended;
    }
  }

  lemma LineEnded(text: Line, end: Line)
    requires LineEnd(end) && forall i :: 0 <= i < |text| ==> text[i] != 10
    ensures Ended(text + end)
  {
  }

  /** Lines of dumps agree up to row order exactly if the parts are the same. */
  lemma {:induction false} AgreeIff(a: seq<Part>, b: seq<Part>, end: Line)
    requires LineEnd(end) && AllProper(a) && AllProper(b)
    ensures Agree(DumpLines(a, end), DumpLines(b, end)) <==> SameParts(a, b)
    decreases |a|
  {
    hide StartsCopy, EndsCopy, Header, Ascii, Proper;
    if a != [] && b != [] {
      AgreeIff(a[1..], b[1..], end);
      AgreeFirst(a, b, end);
      SameFirst(a, b);
    }
  }

  ghost predicate SamePart(p: Part, q: Part) {
    match p
    case Plain(text) => q == p
    case CopyBlock(what, rows) => q.CopyBlock? && q.what == what && multiset(q.rows) == multiset(rows)
  }

  lemma SameFirst(a: seq<Part>, b: seq<Part>)
    requires a != [] && b != []
    ensures SameParts(a, b) <==> SamePart(a[0], b[0]) && SameParts(a[1..], b[1..])
  {
    if SamePart(a[0], b[0]) && SameParts(a[1..], b[1..]) {
      forall i | 0 <= i < |a| ensures SamePart(a[i], b[i]) {
        if i > 0 { assert a[1..][i - 1] == a[i] && b[1..][i - 1] == b[i]; }
      }
    }
    if SameParts(a, b) {
      forall i | 0 <= i < |a| - 1 ensures SamePart(a[1..][i], b[1..][i]) { assert SamePart(a[i + 1], b[i + 1]); }
    }
  }

  lemma AgreeFirst(a: seq<Part>, b: seq<Part>, end: Line)
    requires LineEnd(end) && AllProper(a) && AllProper(b) && a != [] && b != []
    ensures Agree(DumpLines(a, end), DumpLines(b, end))
            <==> SamePart(a[0], b[0]) && Agree(DumpLines(a[1..], end), DumpLines(b[1..], end))
  {
    hide StartsCopy, EndsCopy, Header, Ascii, Agree, Proper, RowLines, RowCount;
    var x, y, v, w := DumpLines(a[1..], end), DumpLines(b[1..], end), DumpLines(a, end), DumpLines(b, end);
    FirstLineOf(a[0], end, x);
    FirstLineOf(b[0], end, y);
    if a[0].Plain? && b[0].Plain? {
      SameText(a[0].text, b[0].text, end);
      assert v[1..] == x && w[1..] == y;
      AgreePlain(v, w);
    } else if a[0].CopyBlock? && b[0].CopyBlock? {
      BlockLines(a[0].what, a[0].rows, end, x);
      BlockLines(b[0].what, b[0].rows, end, y);
      SameHeader(a[0].what, b[0].what, end);
      SameRowLines(a[0].rows, b[0].rows, end);
      AgreeBlocks(v, w, |a[0].rows|, |b[0].rows|);
    } else {
      AgreeHeads(v, w);
    }
  }

  lemma AgreePlain(v: seq<Line>, w: seq<Line>)
    requires v != [] && w != [] && !StartsCopy(v[0])
    ensures Agree(v, w) <==> v[0] == w[0] && Agree(v[1..], w[1..])
  {
    hide StartsCopy;
  }

  lemma {:induction false} AgreeBlocks(v: seq<Line>, w: seq<Line>, n: nat, m: nat)
    requires Block(v, n) && Block(w, m)
    ensures Agree(v, w) <==>
      && v[0] == w[0] && multiset(v[1..n + 1]) == multiset(w[1..m + 1]) && v[n + 1] == w[m + 1]
      && Agree(v[n + 2..], w[m + 2..])
  {
    hide StartsCopy, EndsCopy, RowCount;
  }

  lemma AgreeHeads(v: seq<Line>, w: seq<Line>)
    requires v != [] && w != [] && (StartsCopy(v[0]) <==> !StartsCopy(w[0]))
    ensures !Agree(v, w)
  {
    hide StartsCopy, EndsCopy, RowCount;
  }

  lemma FirstLineOf(p: Part, end: Line, rest: seq<Line>)
    requires LineEnd(end) && Proper(p)
    ensures PartLines(p, end) != [] && (StartsCopy(PartLines(p, end)[0]) <==> p.CopyBlock?)
    ensures (PartLines(p, end) + rest)[0] == PartLines(p, end)[0]
  {
    match p {
      case Plain(text) => StartsIff(text, end);
      case CopyBlock(what, _) => HeaderStarts(what, end);
    }
    hide StartsCopy;
  }

  lemma SameText(s: Line, t: Line, end: Line)
    ensures s + end == t + end <==> s == t
  {
    if s + end == t + end {
      assert s == (s + end)[..|s + end| - |end|] && t == (t + end)[..|t + end| - |end|];
    }
  }

  lemma SameHeader(s: Line, t: Line, end: Line)
    ensures Header(s) + end == Header(t) + end <==> s == t
  {
    SameText(Header(s), Header(t), end);
    var a, z := Ascii("COPY "), Ascii(" FROM stdin;");
    assert Header(s)[|a|..|Header(s)| - |z|] == s && Header(t)[|a|..|Header(t)| - |z|] == t;
  }

  /** Two dumps with the same line ends have the same digest input exactly if they have the same
      statements and COPY headers in the same order, and in each block the same rows, counting
      duplicates. */
  lemma PrintedExact(a: seq<Part>, b: seq<Part>, end: Line)
    requires LineEnd(end) && AllProper(a) && AllProper(b)
    ensures Hashed(Printed(a, end)) == Hashed(Printed(b, end)) <==> SameParts(a, b)
  {
    hide Hashed, Terminated, Agree, Proper;
    DumpSplits(a, end);
    DumpSplits(b, end);
    SplitJoin(DumpLines(a, end));
    SplitJoin(DumpLines(b, end));
    FingerprintExact(Printed(a, end), Printed(b, end));
    AgreeIff(a, b, end);
  }

  // ---- without the end-of-rows line ----

  ghost predicate SameLast(a: seq<Line>, b: seq<Line>) {
    a != [] && b != [] && a[|a| - 1] == b[|b| - 1]
  }

  /** For any two files: the lines fed to the digest are the same exactly when the files agree
      up to row order inside each block and, if a block is left open, end in the same line. */
  lemma {:induction false} CanonExact(a: seq<Line>, b: seq<Line>)
    ensures Canon(a) == Canon(b) <==> Agree(a, b) && (Terminated(a) || SameLast(a, b))
    decreases |a|
  {
    hide StartsCopy, EndsCopy, SortedRows;
    if a != [] && b != [] && a[0] == b[0] {
      if !StartsCopy(a[0]) {
        CanonExact(a[1..], b[1..]);
        PlainLine(a, b);
      } else {
        var n, m := RowCount(a[1..]), RowCount(b[1..]);
        if n + 1 < |a| && m + 1 < |b| {
          CanonExact(a[n + 2..], b[m + 2..]);
          CanonEqualBlock(a, b, n, m);
          LastOfRest(a, n + 2);
          LastOfRest(b, m + 2);
        } else if n + 1 < |a| {
          OpenDiffers(b, a);
        } else if m + 1 < |b| {
          OpenDiffers(a, b);
        } else {
          OpenEqual(a, b);
        }
      }
    } else if a != [] && b != [] {
      assert Canon(a)[0] == a[0] && Canon(b)[0] == b[0];
    }
  }

  lemma LastOfRest(lines: seq<Line>, k: nat)
    requires k <= |lines|
    ensures lines[k..] != [] ==> lines[k..][|lines[k..]| - 1] == lines[|lines| - 1]
    ensures !Terminated(lines[k..]) ==> lines[k..] != []
  {
  }

  lemma PlainLine(a: seq<Line>, b: seq<Line>)
    requires a != [] && b != [] && a[0] == b[0] && !StartsCopy(a[0])
    ensures Canon(a) == Canon(b) <==> Canon(a[1..]) == Canon(b[1..])
    ensures !Terminated(a[1..]) && Agree(a[1..], b[1..]) ==> (SameLast(a, b) <==> SameLast(a[1..], b[1..]))
  {
    hide StartsCopy;
    assert Canon(a) == [a[0]] + Canon(a[1..]) && Canon(b) == [b[0]] + Canon(b[1..]);
    assert Canon(a)[1..] == Canon(a[1..]) && Canon(b)[1..] == Canon(b[1..]);
    PlainLast(a, b);
  }

  lemma PlainLast(a: seq<Line>, b: seq<Line>)
    requires a != [] && b != []
    ensures !Terminated(a[1..]) && Agree(a[1..], b[1..]) ==> (SameLast(a, b) <==> SameLast(a[1..], b[1..]))
  {
    hide StartsCopy;
    LastOfRest(a, 1);
    LastOfRest(b, 1);
  }

  /** A block that is never closed. */
  ghost predicate Open(lines: seq<Line>) {
    lines != [] && StartsCopy(lines[0]) && RowCount(lines[1..]) + 1 == |lines|
  }

  lemma OpenCanon(lines: seq<Line>)
    requires Open(lines)
    ensures Canon(lines) == [lines[0]] + SortedRows(lines[1..]) + [lines[|lines| - 1]] && !Terminated(lines)
    ensures forall i :: 0 <= i < |lines[1..]| ==> !EndsCopy(lines[1..][i])
  {
    hide StartsCopy, EndsCopy, SortedRows;
    assert lines[1..RowCount(lines[1..]) + 1] == lines[1..];
  }

  lemma OpenEqual(a: seq<Line>, b: seq<Line>)
    requires Open(a) && Open(b) && a[0] == b[0]
    ensures Canon(a) == Canon(b) <==> Agree(a, b) && SameLast(a, b)
    ensures !Terminated(a)
  {
    hide StartsCopy, EndsCopy, SortedRows;
    OpenCanon(a);
    OpenCanon(b);
    SortedRowsCanonical(a[1..], b[1..]);
    var x, y := Canon(a), Canon(b);
    assert a[1..RowCount(a[1..]) + 1] == a[1..] && b[1..RowCount(b[1..]) + 1] == b[1..];
    if multiset(a[1..]) == multiset(b[1..]) {
      assert |multiset(a[1..])| == |a[1..]| && |multiset(b[1..])| == |b[1..]|;
    }
    if x == y {
      assert |x| == |a| + 1 && |y| == |b| + 1;
      assert x[1..|a|] == SortedRows(a[1..]) && y[1..|b|] == SortedRows(b[1..]);
      assert x[|a|] == a[|a| - 1] && y[|b|] == b[|b| - 1];
    }
  }

  /** An open block never looks like a closed one: it has no end-of-rows line. */
  lemma OpenDiffers(open: seq<Line>, closed: seq<Line>)
    requires Open(open) && closed != [] && closed[0] == open[0] && RowCount(closed[1..]) + 1 < |closed|
    ensures Canon(open) != Canon(closed) && !Agree(open, closed) && !Agree(closed, open)
  {
    hide EndsCopy, SortedRows;
    var n := RowCount(closed[1..]);
    OpenCanon(open);
    CanonBlock(closed, n);
    RowsBeforeEnd(closed, n);
    var x := Canon(open);
    if x == Canon(closed) {
      assert EndsCopy(x[n + 1]);
      OpenHasNoEnd(open, n);
    }
  }

  lemma OpenHasNoEnd(open: seq<Line>, n: nat)
    requires Open(open) && n + 1 < |Canon(open)|
    ensures !EndsCopy(Canon(open)[n + 1])
  {
    hide EndsCopy, SortedRows;
    OpenCanon(open);
    var rows := open[1..];
    var sorted := SortedRows(rows);
    if n < |rows| {
      assert Canon(open)[n + 1] == sorted[n] && sorted[n] in multiset(sorted);
      assert sorted[n] in rows;
    } else if rows != [] {
      assert open[|open| - 1] == rows[|rows| - 1];
    } else {
      HeaderIsNoEnd(open[0]);
    }
  }

  lemma {:induction false} StrippedPrefix(line: Line)
    ensures RightStripped(line) <= line
  {
    if line != [] && (line[|line| - 1] == LF || line[|line| - 1] == CR) { StrippedPrefix(line[..|line| - 1]); }
  }

  lemma HeaderIsNoEnd(line: Line)
    requires StartsCopy(line)
    ensures !EndsCopy(line)
  {
    StrippedPrefix(line);
  }

  /** `fingerprint`: the outer loop and the loops over the rows of a block share one stream
      position `next`. */
  method Feed(file: seq<byte>) returns (digest: seq<byte>)
    ensures digest == Hashed(file)
  {
    var stream := Lines(file);
    digest := [];
    var next := 0;
    while next < |stream|
      invariant 0 <= next <= |stream|
      invariant digest + Concat(Canon(stream[next..])) == Hashed(file)
    {
      ghost var before, start := digest, next;
      var line := stream[next];
      next := next + 1;
      digest := digest + line;
      if StartsCopy(line) {
        var rows;
        rows, line, next := BlockRows(stream, next);
        digest := UpdateAll(digest, SortedRows(rows));
        digest := digest + line;
        ConcatBlock(stream[start], SortedRows(rows), line, Canon(stream[next..]));
        Regroup(before, stream[start], Concat(SortedRows(rows)), line, Concat(Canon(stream[next..])));
      } else {
        assert stream[start..][1..] == stream[next..];
        assert Canon(stream[start..]) == [line] + Canon(stream[next..]);
        Regroup(before, line, [], [], Concat(Canon(stream[next..])));
      }
    }
    assert stream[next..] == [];
  }

  lemma Regroup(digest: seq<byte>, a: seq<byte>, b: seq<byte>, c: seq<byte>, rest: seq<byte>)
    ensures digest + a + b + c + rest == digest + (a + b + c + rest)
    ensures digest + a + rest == digest + (a + rest)
  {
  }

  method UpdateAll(before: seq<byte>, rows: seq<Line>) returns (digest: seq<byte>)
    ensures digest == before + Concat(rows)
  {
    digest := before;
    for i := 0 to |rows|
      invariant digest == before + Concat(rows[..i])
    {
      ConcatSnoc(rows[..i], rows[i]);
      assert rows[..i + 1] == rows[..i] + [rows[i]];
      digest := digest + rows[i];
    }
    assert rows[..|rows|] == rows;
  }

  /** The inner loop: rows up to the end-of-rows line, and the last line read. */
  method BlockRows(stream: seq<Line>, start: nat) returns (rows: seq<Line>, line: Line, next: nat)
    requires 0 < start <= |stream| && StartsCopy(stream[start - 1])
    ensures start <= next <= |stream|
    ensures Canon(stream[start - 1..]) ==
            [stream[start - 1]] + SortedRows(rows) + [line] + Canon(stream[next..])
  {
    hide Canon, SortedRows, StartsCopy, EndsCopy;
    rows, line, next := [], stream[start - 1], start;
    while next < |stream|
      invariant start <= next <= |stream|
      invariant rows == stream[start..next] && line == stream[next - 1]
      invariant forall i :: 0 <= i < |rows| ==> !EndsCopy(rows[i])
    {
      line := stream[next];
      next := next + 1;
      if EndsCopy(line) {
        EndedBlock(stream, start, next, rows);
        return;
      }
      rows := rows + [line];
    }
    OpenBlock(stream, start, rows);
  }

  lemma ConcatSnoc(lines: seq<Line>, line: Line)
    ensures Concat(lines + [line]) == Concat(lines) + line
  {
    if lines == [] {
      assert lines + [line] == [line];
      assert Concat([line]) == line + Concat([line][1..]) && [line][1..] == [];
    } else {
      assert (lines + [line])[1..] == lines[1..] + [line];
      ConcatSnoc(lines[1..], line);
    }
  }

  lemma {:induction false} ConcatAppend(a: seq<Line>, b: seq<Line>)
    ensures Concat(a + b) == Concat(a) + Concat(b)
  {
    if a == [] {
      assert a + b == b;
    } else {
      assert (a + b)[1..] == a[1..] + b;
      ConcatAppend(a[1..], b);
    }
  }

  lemma ConcatBlock(header: Line, rows: seq<Line>, end: Line, tail: seq<Line>)
    ensures Concat([header] + rows + [end] + tail) == header + Concat(rows) + end + Concat(tail)
  {
    ConcatAppend([header] + rows + [end], tail);
    ConcatSnoc([header] + rows, end);
    ConcatAppend([header], rows);
    assert Concat([header]) == header + Concat([header][1..]) && [header][1..] == [];
  }

  lemma EndedBlock(stream: seq<Line>, start: nat, next: nat, rows: seq<Line>)
    requires 0 < start < next <= |stream| && StartsCopy(stream[start - 1])
    requires EndsCopy(stream[next - 1]) && rows == stream[start..next - 1]
    requires forall i :: 0 <= i < |rows| ==> !EndsCopy(rows[i])
    ensures Canon(stream[start - 1..]) ==
            [stream[start - 1]] + SortedRows(rows) + [stream[next - 1]] + Canon(stream[next..])
  {
    hide StartsCopy, EndsCopy, SortedRows;
    var rest, n := stream[start - 1..], |rows|;
    StreamSlices(stream, start, next);
    forall i | 0 <= i < n ensures !EndsCopy(stream[start..][i]) { assert stream[start..][i] == rows[i]; }
    assert stream[start..][n] == stream[next - 1];
    RowCountIs(stream[start..], n);
  }

  lemma StreamSlices(stream: seq<Line>, start: nat, next: nat)
    requires 0 < start < next <= |stream|
    ensures var rest, n := stream[start - 1..], next - 1 - start;
            && rest[0] == stream[start - 1] && rest[1..] == stream[start..] && rest[1..n + 1] == stream[start..next - 1]
            && rest[n + 1] == stream[next - 1] && rest[n + 2..] == stream[next..]
  {
  }

  lemma OpenBlock(stream: seq<Line>, start: nat, rows: seq<Line>)
    requires 0 < start <= |stream| && StartsCopy(stream[start - 1]) && rows == stream[start..]
    requires forall i :: 0 <= i < |rows| ==> !EndsCopy(rows[i])
    ensures Canon(stream[start - 1..]) ==
            [stream[start - 1]] + SortedRows(rows) + [stream[|stream| - 1]] + Canon(stream[|stream|..])
  {
    var rest := stream[start - 1..];
    assert rest[1..] == rows && rest[1..|rows| + 1] == rows;
    NoEnd(rows);
    assert stream[|stream|..] == [];
  }

  lemma NoEnd(lines: seq<Line>)
    requires forall i :: 0 <= i < |lines| ==> !EndsCopy(lines[i])
    ensures RowCount(lines) == |lines|
  {
  }
}
