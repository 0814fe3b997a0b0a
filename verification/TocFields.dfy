/** The identifier tokenizer for archive listings (postgres/schema_reduction.py, `_toc_fields`). */
module TocFields {

  import opened Ordering

  type Bytes = seq<byte>

  const SPACE: byte := 32
  const QUOTE: byte := 34

  // ---- the tokenizer ----

  /** Read one field from the front of `value`: its bytes and what is left. */
  function ScanField(value: Bytes, quoted: bool, field: Bytes): (r: (Bytes, Bytes))
    ensures |r.1| <= |value|
    ensures value != [] && (quoted || value[0] != SPACE) ==> |r.1| < |value|
    decreases |value|
  {
    if value == [] then (field, [])
    else if value[0] == QUOTE then
      if quoted && |value| > 1 && value[1] == QUOTE
      then ScanField(value[2..], quoted, field + [QUOTE])
      else ScanField(value[1..], !quoted, field)
    else if value[0] == SPACE && !quoted then (field, value)
    else ScanField(value[1..], quoted, field + [value[0]])
  }

  function SkipSpaces(value: Bytes): (rest: Bytes)
    ensures |rest| <= |value|
    ensures rest != [] ==> rest[0] != SPACE
  {
    if value != [] && value[0] == SPACE then SkipSpaces(value[1..]) else value
  }

  /** The fields of an identity. */
  function Fields(value: Bytes): seq<Bytes>
    decreases |value|
  {
    var start := SkipSpaces(value);
    if start == [] then [] else
      var (field, rest) := ScanField(start, false, []);
      [field] + Fields(rest)
  }

  /** `_toc_fields`: the same computation with an index into the bytes. */
  method TocFields(value: Bytes) returns (fields: seq<Bytes>)
    ensures fields == Fields(value)
  {
    hide SkipSpaces, ScanField;
    fields := [];
    var index := 0;
    while index < |value|
      invariant 0 <= index <= |value|
      invariant fields + Fields(value[index..]) == Fields(value)
    {
      ghost var entry := index;
      index := SkipBlanks(value, index);
      if index == |value| {
        assert Fields(value[entry..]) == [];
        break;
      }
      ghost var begin := index;
      var field;
      field, index := ReadField(value, index);
      assert Fields(value[entry..]) == [field] + Fields(value[index..]);
      assert fields + ([field] + Fields(value[index..])) == (fields + [field]) + Fields(value[index..]);
      fields := fields + [field];
    }
    assert value[|value|..] == [];
  }

  /** The first inner loop. */
  method SkipBlanks(value: Bytes, start: nat) returns (index: nat)
    requires start <= |value|
    ensures start <= index <= |value| && SkipSpaces(value[start..]) == value[index..]
  {
    index := start;
    while index < |value| && value[index] == SPACE
      invariant start <= index <= |value|
      invariant SkipSpaces(value[index..]) == SkipSpaces(value[start..])
    {
      assert value[index..][1..] == value[index + 1..];
      index := index + 1;
    }
  }

  /** The second inner loop: one field, up to an unquoted space. */
  method ReadField(value: Bytes, begin: nat) returns (field: Bytes, index: nat)
    requires begin < |value| && value[begin] != SPACE
    ensures begin < index <= |value| && ScanField(value[begin..], false, []) == (field, value[index..])
  {
    index, field := begin, [];
    var quoted := false;
    while index < |value|
      invariant begin <= index <= |value|
      invariant index == begin ==> !quoted
      invariant ScanField(value[index..], quoted, field) == ScanField(value[begin..], false, [])
      decreases |value| - index
    {
      assert value[index..][1..] == value[index + 1..];
      if value[index] == QUOTE {
        if quoted && index + 1 < |value| && value[index + 1] == QUOTE {
          assert value[index..][2..] == value[index + 2..];
          field := field + [QUOTE];
          index := index + 2;
          continue;
        }
        quoted := !quoted;
      } else if value[index] == SPACE && !quoted {
        break;
      } else {
        field := field + [value[index]];
      }
      index := index + 1;
    }
  }

  // ---- printing ----

  /** Double every quote. */
  function Escaped(field: Bytes): Bytes {
    if field == [] then []
    else (if field[0] == QUOTE then [QUOTE, QUOTE] else [field[0]]) + Escaped(field[1..])
  }

  /** A field that needs no quotes. */
  predicate Safe(field: Bytes) {
    field != [] && forall i :: 0 <= i < |field| ==> field[i] != SPACE && field[i] != QUOTE
  }

  /** A printed field: preceded by `gap` spaces, as a delimited identifier or bare. */
  datatype Item = Item(field: Bytes, delimited: bool, gap: nat)

  ghost predicate Printable(items: seq<Item>) {
    && (forall i :: 0 <= i < |items| ==> items[i].delimited || Safe(items[i].field))
    && (forall i :: 0 < i < |items| ==> items[i].gap > 0)
  }

  function Spaces(n: nat): Bytes {
    if n == 0 then [] else [SPACE] + Spaces(n - 1)
  }

  function Written(item: Item): Bytes {
    if item.delimited then [QUOTE] + Escaped(item.field) + [QUOTE] else item.field
  }

  function Print(items: seq<Item>, trailing: nat): Bytes {
    if items == [] then Spaces(trailing)
    else Spaces(items[0].gap) + (Written(items[0]) + Print(items[1..], trailing))
  }

  function FieldsOf(items: seq<Item>): seq<Bytes> {
    if items == [] then [] else [items[0].field] + FieldsOf(items[1..])
  }

  lemma {:induction false} SkipsGap(n: nat, rest: Bytes)
    ensures SkipSpaces(Spaces(n) + rest) == SkipSpaces(rest)
  {
    if n == 0 {
      assert Spaces(0) + rest == rest;
    } else {
      assert (Spaces(n) + rest)[1..] == Spaces(n - 1) + rest;
      SkipsGap(n - 1, rest);
    }
  }

  lemma {:induction false} ScansEscaped(field: Bytes, rest: Bytes, before: Bytes)
    requires rest == [] || rest[0] != QUOTE
    ensures ScanField(Escaped(field) + ([QUOTE] + rest), true, before) == ScanField(rest, false, before + field)
    decreases |field|
  {
    var value := Escaped(field) + ([QUOTE] + rest);
    if field == [] {
      assert value == [QUOTE] + rest && value[1..] == rest;
      assert before + field == before;
    } else {
      var tail := Escaped(field[1..]) + ([QUOTE] + rest);
      ScansEscaped(field[1..], rest, before + [field[0]]);
      assert before + [field[0]] + field[1..] == before + field;
      if field[0] == QUOTE {
        assert value == [QUOTE, QUOTE] + tail && value[2..] == tail;
      } else {
        assert value == [field[0]] + tail && value[1..] == tail;
      }
    }
  }

  lemma {:induction false} ScansSafe(field: Bytes, rest: Bytes, before: Bytes)
    requires forall i :: 0 <= i < |field| ==> field[i] != SPACE && field[i] != QUOTE
    ensures ScanField(field + rest, false, before) == ScanField(rest, false, before + field)
    decreases |field|
  {
    if field == [] {
      assert field + rest == rest && before + field == before;
    } else {
      assert (field + rest)[1..] == field[1..] + rest;
      ScansSafe(field[1..], rest, before + [field[0]]);
      assert before + [field[0]] + field[1..] == before + field;
    }
  }

  lemma ScansWritten(item: Item, rest: Bytes)
    requires item.delimited || Safe(item.field)
    requires rest == [] || rest[0] == SPACE
    ensures ScanField(Written(item) + rest, false, []) == (item.field, rest)
  {
    assert [] + item.field == item.field;
    if item.delimited {
      var inner := Escaped(item.field) + ([QUOTE] + rest);
      assert Written(item) + rest == [QUOTE] + inner;
      assert ([QUOTE] + inner)[1..] == inner;
      ScansEscaped(item.field, rest, []);
    } else {
      ScansSafe(item.field, rest, []);
    }
  }

  /** Tokenizing inverts printing: any fields - empty, with spaces, with quotes - printed as
      delimited identifiers with doubled quotes (section 5.2 of ISO/IEC 9075-2) or bare when
      safe, and separated by one or more spaces, come back unchanged. */
  lemma {:induction false} RoundTrip(items: seq<Item>, trailing: nat)
    requires Printable(items)
    ensures Fields(Print(items, trailing)) == FieldsOf(items)
    decreases |items|
  {
    var value := Print(items, trailing);
    if items == [] {
      SkipsGap(trailing, []);
      assert Spaces(trailing) + [] == Spaces(trailing);
    } else {
      var rest := Print(items[1..], trailing);
      var written := Written(items[0]);
      SkipsGap(items[0].gap, written + rest);
      assert written != [] && written[0] != SPACE;
      assert SkipSpaces(written + rest) == written + rest;
      assert rest == [] || rest[0] == SPACE by {
        if |items| > 1 { assert items[1..][0] == items[1] && items[1].gap > 0; }
      }
      ScansWritten(items[0], rest);
      RoundTrip(items[1..], trailing);
    }
  }
}
