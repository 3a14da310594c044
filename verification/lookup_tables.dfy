/** The build-time script scripts/make-lookup-tables.py. It reads a tab-separated listing
    of the opcodes (addressing mode, opcode written `$XY`, length, cycles), drops the
    header line, fills the three 256-entry tables that `execute` indexes by opcode, and
    prints each table 16 values to a row. Reading the file and printing are replaced by
    the text they read and write. */
module LookupTables {

  import opened Wrappers

  /** The length of each table: one entry per opcode. */
  const TABLE_SIZE: nat := 256

  // Python's `str.split`, `str.lower` and `int(_, 16)`.

  /** `s.split(sep)`: the pieces between the separators; there is always at least one,
      and none holds the separator. */
  function Split(s: string, sep: char): (pieces: seq<string>)
    ensures |pieces| >= 1
    ensures forall i :: 0 <= i < |pieces| ==> sep !in pieces[i]
  {
    if |s| == 0 then [""]
    else
      var rest := Split(s[1..], sep);
      if s[0] == sep then [""] + rest
      else [[s[0]] + rest[0]] + rest[1..]
  }

  /** `sep.join(pieces)`. */
  function Join(pieces: seq<string>, sep: char): string
    requires |pieces| >= 1
  {
    if |pieces| == 1 then pieces[0] else pieces[0] + [sep] + Join(pieces[1..], sep)
  }

  /** Joining the pieces of a split gives the text back. */
  lemma {:induction false} JoinSplit(s: string, sep: char)
    ensures Join(Split(s, sep), sep) == s
  {
    if |s| > 0 {
      JoinSplit(s[1..], sep);
      var rest := Split(s[1..], sep);
      if s[0] != sep {
        if |rest| == 1 {
          assert Join(Split(s, sep), sep) == [s[0]] + rest[0];
        } else {
          assert Split(s, sep)[1..] == rest[1..];
          assert Join(Split(s, sep), sep) == [s[0]] + rest[0] + [sep] + Join(rest[1..], sep);
        }
      }
    }
  }

  /** A text that starts with a separator-free piece and a separator splits into that
      piece followed by the pieces of the rest. */
  lemma {:induction false} SplitAfterPiece(h: string, rest: string, sep: char)
    requires sep !in h
    ensures Split(h + [sep] + rest, sep) == [h] + Split(rest, sep)
  {
    if |h| > 0 {
      SplitAfterPiece(h[1..], rest, sep);
      assert (h + [sep] + rest)[1..] == h[1..] + [sep] + rest;
      assert [h[0]] + h[1..] == h;
    } else {
      assert ([sep] + rest)[1..] == rest;
    }
  }

  /** A text that ends with a separator splits into pieces the last of which is empty. */
  lemma {:induction false} SplitTrailing(s: string, sep: char)
    ensures var pieces := Split(s + [sep], sep);
      |pieces| >= 2 && pieces[|pieces| - 1] == ""
  {
    if |s| > 0 {
      SplitTrailing(s[1..], sep);
      assert (s + [sep])[1..] == s[1..] + [sep];
    } else {
      assert Split([sep], sep) == [""] + Split([], sep);
    }
  }

  /** The lower-case form of an ASCII letter; other characters are kept. */
  function LowerChar(c: char): char
  {
    if 'A' <= c <= 'Z' then (c as int + 32) as char else c
  }

  /** `s.lower()` on ASCII letters. */
  function Lower(s: string): (r: string)
    ensures |r| == |s|
  {
    seq(|s|, i requires 0 <= i < |s| => LowerChar(s[i]))
  }

  /** The value of one digit of `int(_, 16)`, which accepts both cases. */
  function HexDigit(c: char): Option<nat>
  {
    if '0' <= c <= '9' then Some(c as int - '0' as int)
    else if 'a' <= c <= 'f' then Some(c as int - 'a' as int + 10)
    else if 'A' <= c <= 'F' then Some(c as int - 'A' as int + 10)
    else None
  }

  /** The value of a string of hex digits read most significant first, or None when a
      character is not a hex digit. */
  function HexValue(s: string): (r: Option<nat>)
    ensures r.Some? <==> forall i :: 0 <= i < |s| ==> HexDigit(s[i]).Some?
    ensures r.Some? ==> r.value < Pow16(|s|)
  {
    if |s| == 0 then Some(0)
    else match (HexValue(s[..|s| - 1]), HexDigit(s[|s| - 1]))
      case (Some(high), Some(low)) => Some(high * 16 + low)
      case _ => None
  }

  /** 16 to the power `n`. */
  function Pow16(n: nat): (r: nat)
    ensures r >= 1
  {
    if n == 0 then 1 else 16 * Pow16(n - 1)
  }

  /** `int(s, 16)` on a string of hex digits: None (a `ValueError`) when it is empty or
      holds anything else. */
  function ParseHex(s: string): Option<nat>
  {
    if |s| == 0 then None else HexValue(s)
  }

  /** The opcode column: what follows its first character (the `$` sigil), lower-cased,
      read as hex. */
  function ParseOpcode(field: string): Option<nat>
  {
    ParseHex(Lower(if |field| == 0 then field else field[1..]))
  }

  /** `int(_, 16)` does not depend on the case of the digits, so `lower()` changes
      nothing. */
  lemma {:induction false} HexValueLower(s: string)
    ensures HexValue(Lower(s)) == HexValue(s)
  {
    if |s| > 0 {
      HexValueLower(s[..|s| - 1]);
      assert Lower(s)[..|s| - 1] == Lower(s[..|s| - 1]);
    }
  }

  /** An opcode field is read as the hex value of what follows its first character,
      whatever the case of the digits. */
  lemma OpcodeFieldValue(sigil: char, digits: string)
    requires |digits| > 0
    ensures ParseOpcode([sigil] + digits) == HexValue(digits)
  {
    assert ([sigil] + digits)[1..] == digits;
    HexValueLower(digits);
  }

  /** `$XY` parses to 16 times the value of X plus the value of Y, in either case. */
  lemma TwoDigitOpcode(sigil: char, x: char, y: char)
    requires HexDigit(x).Some? && HexDigit(y).Some?
    ensures ParseOpcode([sigil, x, y]) == Some(16 * HexDigit(x).value + HexDigit(y).value)
  {
    OpcodeFieldValue(sigil, [x, y]);
    assert [x, y][..1] == [x];
    assert [x][..0] == [];
  }

  /** The upper-case hex digit of a value below 16. */
  function HexChar(d: nat): (c: char)
    requires d < 16
    ensures HexDigit(c) == Some(d)
  {
    if d < 10 then ('0' as int + d) as char else ('A' as int + d - 10) as char
  }

  /** Every opcode written `$XY` with two upper-case digits parses back to itself. */
  lemma OpcodeRoundTrip(op: nat)
    requires op < TABLE_SIZE
    ensures ParseOpcode(['$', HexChar(op / 16), HexChar(op % 16)]) == Some(op)
  {
    TwoDigitOpcode('$', HexChar(op / 16), HexChar(op % 16));
  }

  // The records.

  /** A table entry: the text of a column, or the number a table starts with. */
  datatype Field = Text(s: string) | Number(n: nat)

  /** A preprocessed line: its tab-separated columns, column 1 replaced by the opcode it
      holds. */
  datatype Row = Row(mode: string, opcode: nat, rest: seq<string>)

  /** The exceptions that end the script. */
  datatype ErrorKind = IndexError | ValueError

  /** An exception and the index, in the lines after the header, of the line that
      raised it. */
  datatype ScriptError = ScriptError(kind: ErrorKind, line: nat)

  /** The body of the preprocessing loop for one line: split on tabs, then replace
      column 1 by the opcode it holds. */
  function ParseLine(line: string): Result<Row, ErrorKind>
  {
    var cols := Split(line, '\t');
    if |cols| < 2 then Err(IndexError)
    else match ParseOpcode(cols[1])
      case None => Err(ValueError)
      case Some(op) => Ok(Row(cols[0], op, cols[2..]))
  }

  /** A line parses into its tab-separated columns with the opcode column read as hex;
      fewer than two columns is an `IndexError` and an opcode that is not hex a
      `ValueError`. */
  lemma ParseLineOutcome(line: string)
    ensures var cols := Split(line, '\t'); var r := ParseLine(line);
      && (r == Err(IndexError) <==> |cols| < 2)
      && (r == Err(ValueError) <==> |cols| >= 2 && ParseOpcode(cols[1]).None?)
      && (r.Ok? <==> |cols| >= 2 && ParseOpcode(cols[1]).Some?)
      && (r.Ok? ==> [r.value.mode, cols[1]] + r.value.rest == cols
                    && r.value.opcode == ParseOpcode(cols[1]).value)
  {
    var cols := Split(line, '\t');
    if |cols| >= 2 {
      assert [cols[0], cols[1]] + cols[2..] == cols;
    }
  }

  /** The loop body's outcome on each line. */
  function ParseAll(lines: seq<string>): seq<Result<Row, ErrorKind>>
  {
    seq(|lines|, i requires 0 <= i < |lines| => ParseLine(lines[i]))
  }

  /** The preprocessing loop over outcomes taken in order: the rows, or the exception of
      the first line that fails. */
  function Collect(outcomes: seq<Result<Row, ErrorKind>>): (r: Result<seq<Row>, ScriptError>)
    ensures r.Ok? ==> |r.value| == |outcomes|
  {
    if |outcomes| == 0 then Ok([])
    else match Collect(outcomes[..|outcomes| - 1])
      case Err(e) => Err(e)
      case Ok(rows) =>
        match outcomes[|outcomes| - 1]
        case Err(kind) => Err(ScriptError(kind, |outcomes| - 1))
        case Ok(row) => Ok(rows + [row])
  }

  /** The preprocessing loop over every line. */
  function PreprocessLines(lines: seq<string>): Result<seq<Row>, ScriptError>
  {
    Collect(ParseAll(lines))
  }

  /** The loop succeeds exactly when every line parses, and then row `i` is line `i`
      parsed. */
  lemma {:induction false} CollectSucceeds(outcomes: seq<Result<Row, ErrorKind>>)
    ensures Collect(outcomes).Ok? <==> forall i :: 0 <= i < |outcomes| ==> outcomes[i].Ok?
    ensures Collect(outcomes).Ok? ==>
      forall i :: 0 <= i < |outcomes| ==> Collect(outcomes).value[i] == outcomes[i].value
  {
    if |outcomes| > 0 {
      var init := outcomes[..|outcomes| - 1];
      CollectSucceeds(init);
      assert forall i :: 0 <= i < |init| ==> init[i] == outcomes[i];
    }
  }

  /** A failing loop reports the first line that does not parse, with its error. */
  lemma {:induction false} CollectFails(outcomes: seq<Result<Row, ErrorKind>>)
    requires Collect(outcomes).Err?
    ensures var e := Collect(outcomes).error;
      e.line < |outcomes| && outcomes[e.line] == Err(e.kind)
      && forall i :: 0 <= i < e.line ==> outcomes[i].Ok?
  {
    var init := outcomes[..|outcomes| - 1];
    assert forall i :: 0 <= i < |init| ==> init[i] == outcomes[i];
    if Collect(init).Err? {
      CollectFails(init);
    } else {
      CollectSucceeds(init);
    }
  }

  /** Once a prefix of the lines fails, the whole loop fails with the same error. */
  lemma {:induction false} CollectErrorPersists(outcomes: seq<Result<Row, ErrorKind>>, k: nat)
    requires k <= |outcomes| && Collect(outcomes[..k]).Err?
    ensures Collect(outcomes) == Collect(outcomes[..k])
  {
    if k < |outcomes| {
      var init := outcomes[..|outcomes| - 1];
      assert init[..k] == outcomes[..k];
      CollectErrorPersists(init, k);
    } else {
      assert outcomes[..k] == outcomes;
    }
  }

  /** The preprocessing loop, lines 15-17: each line in turn is split and its opcode
      parsed, and the first failure ends the script. */
  method Preprocess(lines: seq<string>) returns (r: Result<seq<Row>, ScriptError>)
    ensures r == PreprocessLines(lines)
  {
    ghost var outcomes := ParseAll(lines);
    var rows: seq<Row> := [];
    var i := 0;
    while i < |lines|
      invariant 0 <= i <= |lines|
      invariant Collect(outcomes[..i]) == Ok(rows)
    {
      assert outcomes[..i + 1][..i] == outcomes[..i];
      assert outcomes[i] == ParseLine(lines[i]);
      match ParseLine(lines[i])
      case Err(kind) =>
        CollectErrorPersists(outcomes, i + 1);
        return Err(ScriptError(kind, i));
      case Ok(row) =>
        rows := rows + [row];
      i := i + 1;
    }
    assert outcomes[..i] == outcomes;
    r := Ok(rows);
  }

  // The tables.

  /** `address_modes`, `num_cycles` and `instr_bytes`. The mode entries are the text of
      column 0; the other two keep the text of columns 3 and 2 (the script never converts
      them to numbers) and the number 0 where nothing was written. */
  datatype Tables = Tables(modes: seq<Field>, cycles: seq<Field>, bytes: seq<Field>)

  /** Three tables of the same size. */
  predicate Sized(t: Tables, n: nat)
  {
    |t.modes| == n && |t.cycles| == n && |t.bytes| == n
  }

  /** The default of the mode table. */
  const NUL: Field := Text("NUL")

  /** Lines 20-22: 256 entries each, `'NUL'` for the modes and 0 for the others. */
  const INITIAL_TABLES: Tables :=
    Tables(Repeat(NUL, TABLE_SIZE), Repeat(Number(0), TABLE_SIZE), Repeat(Number(0), TABLE_SIZE))

  /** `[x] * n`. */
  function Repeat(x: Field, n: nat): (r: seq<Field>)
    ensures |r| == n && forall i :: 0 <= i < n ==> r[i] == x
  {
    if n == 0 then [] else Repeat(x, n - 1) + [x]
  }

  /** A row the filling loop accepts: four columns and an opcode below 256. */
  predicate Fits(row: Row)
  {
    |row.rest| == 2 && row.opcode < TABLE_SIZE
  }

  /** The body of the filling loop for one row: unpacking four columns (else a
      `ValueError`), then writing the mode, cycles and length at the opcode (an opcode past
      the tables is an `IndexError`). */
  function Record(t: Tables, row: Row, line: nat): (r: Result<Tables, ScriptError>)
    requires Sized(t, TABLE_SIZE)
    ensures r.Ok? <==> Fits(row)
    ensures r.Ok? ==> Sized(r.value, TABLE_SIZE)
  {
    if |row.rest| != 2 then Err(ScriptError(ValueError, line))
    else if row.opcode >= TABLE_SIZE then Err(ScriptError(IndexError, line))
    else
      var op := row.opcode;
      Ok(Tables(t.modes[op := Text(row.mode)], t.cycles[op := Text(row.rest[1])], t.bytes[op := Text(row.rest[0])]))
  }

  /** The filling loop over all rows: the tables, or the exception of the first row that
      fails. */
  function FillTables(rows: seq<Row>): (r: Result<Tables, ScriptError>)
    ensures r.Ok? ==> Sized(r.value, TABLE_SIZE)
  {
    if |rows| == 0 then Ok(INITIAL_TABLES)
    else if FillTables(rows[..|rows| - 1]).Err? then FillTables(rows[..|rows| - 1])
    else Record(FillTables(rows[..|rows| - 1]).value, rows[|rows| - 1], |rows| - 1)
  }

  /** Filling succeeds exactly when every row fits; otherwise it reports the first row that
      does not, with a `ValueError` when it does not have four columns and an `IndexError`
      when its opcode is past the tables. */
  lemma {:induction false} FillOutcome(rows: seq<Row>)
    ensures var r := FillTables(rows);
      (r.Ok? <==> forall i :: 0 <= i < |rows| ==> Fits(rows[i]))
      && (r.Err? ==> var k := r.error.line;
            k < |rows| && !Fits(rows[k])
            && r.error.kind == (if |rows[k].rest| != 2 then ValueError else IndexError)
            && forall i :: 0 <= i < k ==> Fits(rows[i]))
  {
    if |rows| > 0 {
      var init := rows[..|rows| - 1];
      FillOutcome(init);
      assert forall i :: 0 <= i < |init| ==> init[i] == rows[i];
    }
  }

  /** When two rows share an opcode the later one wins: the entries of an opcode are the
      columns of the last row that names it. */
  lemma {:induction false} LaterRecordWins(rows: seq<Row>, j: nat)
    requires FillTables(rows).Ok? && j < |rows|
    requires forall l :: j < l < |rows| ==> rows[l].opcode != rows[j].opcode
    ensures Fits(rows[j])
    ensures var t := FillTables(rows).value; var row := rows[j];
      && t.modes[row.opcode] == Text(row.mode)
      && t.cycles[row.opcode] == Text(row.rest[1])
      && t.bytes[row.opcode] == Text(row.rest[0])
  {
    FillOutcome(rows);
    if j < |rows| - 1 {
      var init := rows[..|rows| - 1];
      assert forall l :: j < l < |init| ==> init[l] == rows[l];
      LaterRecordWins(init, j);
    }
  }

  /** An opcode that no row names keeps its default: `'NUL'` mode, 0 cycles, 0 bytes. */
  lemma {:induction false} AbsentOpcodeKeepsDefault(rows: seq<Row>, op: nat)
    requires FillTables(rows).Ok? && op < TABLE_SIZE
    requires forall l :: 0 <= l < |rows| ==> rows[l].opcode != op
    ensures var t := FillTables(rows).value;
      t.modes[op] == NUL && t.cycles[op] == Number(0) && t.bytes[op] == Number(0)
  {
    if |rows| > 0 {
      var init := rows[..|rows| - 1];
      assert forall l :: 0 <= l < |init| ==> init[l] == rows[l];
      AbsentOpcodeKeepsDefault(init, op);
    }
  }

  /** Once a prefix of the rows fails, the whole filling fails with the same error. */
  lemma {:induction false} FillErrorPersists(rows: seq<Row>, k: nat)
    requires k <= |rows| && FillTables(rows[..k]).Err?
    ensures FillTables(rows) == FillTables(rows[..k])
  {
    if k < |rows| {
      var init := rows[..|rows| - 1];
      assert init[..k] == rows[..k];
      FillErrorPersists(init, k);
    } else {
      assert rows[..k] == rows;
    }
  }

  /** The filling loop, lines 24-28: for each row in turn, unpack it and write its mode,
      cycles and length at its opcode. */
  method Fill(rows: seq<Row>) returns (r: Result<Tables, ScriptError>)
    ensures r == FillTables(rows)
  {
    var modes := new Field[TABLE_SIZE](_ => NUL);
    var cycles := new Field[TABLE_SIZE](_ => Number(0));
    var bytes := new Field[TABLE_SIZE](_ => Number(0));
    assert Tables(modes[..], cycles[..], bytes[..]) == INITIAL_TABLES;
    var i := 0;
    while i < |rows|
      invariant 0 <= i <= |rows|
      invariant FillTables(rows[..i]) == Ok(Tables(modes[..], cycles[..], bytes[..]))
    {
      assert rows[..i + 1][..i] == rows[..i];
      var Row(mode, op, rest) := rows[i];
      if |rest| != 2 {
        FillErrorPersists(rows, i + 1);
        return Err(ScriptError(ValueError, i));
      }
      if op >= TABLE_SIZE {
        FillErrorPersists(rows, i + 1);
        return Err(ScriptError(IndexError, i));
      }
      modes[op] := Text(mode);
      cycles[op] := Text(rest[1]);
      bytes[op] := Text(rest[0]);
      i := i + 1;
    }
    assert rows[..i] == rows;
    r := Ok(Tables(modes[..], cycles[..], bytes[..]));
  }

  /** The whole script on the file's text: split into lines, drop the header, preprocess,
      fill. */
  function Script(contents: string): (r: Result<Tables, ScriptError>)
    ensures r.Ok? ==> Sized(r.value, TABLE_SIZE)
  {
    var lines := Split(contents, '\n')[1..];
    match PreprocessLines(lines)
    case Err(e) => Err(e)
    case Ok(rows) => FillTables(rows)
  }

  /** The tables do not depend on the first line: it is dropped as a header. */
  lemma HeaderIgnored(h1: string, h2: string, body: string)
    requires '\n' !in h1 && '\n' !in h2
    ensures Script(h1 + "\n" + body) == Script(h2 + "\n" + body)
  {
    SplitAfterPiece(h1, body, '\n');
    SplitAfterPiece(h2, body, '\n');
  }

  /** A file that ends with a line break has an empty last line, which has no opcode
      column: the script always fails on it, if not before. */
  lemma TrailingNewlineFails(s: string)
    ensures Script(s + "\n").Err?
  {
    SplitTrailing(s, '\n');
    var lines := Split(s + "\n", '\n')[1..];
    assert lines[|lines| - 1] == "";
    assert Split("", '\t') == [""];
  }

  /** Lines 9-28 once the file is read: the script's tables, or the exception that ends it. */
  method MakeTables(contents: string) returns (r: Result<Tables, ScriptError>)
    ensures r == Script(contents)
  {
    var lines := Split(contents, '\n');
    lines := lines[1..];
    var pre := Preprocess(lines);
    if pre.Err? {
      return Err(pre.error);
    }
    r := Fill(pre.value);
  }

  // Printing.

  /** The decimal digits of `n`, as `str(n)`. */
  function Decimal(n: nat): string
  {
    if n < 10 then [('0' as int + n) as char] else Decimal(n / 10) + [('0' as int + n % 10) as char]
  }

  /** `f'{x}'` for a table entry. */
  function FieldText(f: Field): string
  {
    match f
    case Text(s) => s
    case Number(n) => Decimal(n)
  }

  /** The text of every entry. */
  function Entries(table: seq<Field>): (texts: seq<string>)
    ensures |texts| == |table|
  {
    seq(|table|, i requires 0 <= i < |table| => FieldText(table[i]))
  }

  /** One printed entry: its text and `", "`. */
  function Cell(text: string): string
  {
    text + ", "
  }

  /** What is printed before entry `i`: a line break when `i` is a multiple of 16, the
      script's `split_on`. */
  function Break(i: nat): string
  {
    if i % 16 == 0 then "\n" else ""
  }

  /** What the loop of `print_lkup_table` has printed after the first `i` of the entries'
      texts. */
  function Layout(texts: seq<string>, i: nat): string
    requires i <= |texts|
  {
    if i == 0 then "" else Layout(texts, i - 1) + Break(i - 1) + Cell(texts[i - 1])
  }

  /** The whole text `print_lkup_table` prints: the loop, then two line breaks. */
  function Printed(table: seq<Field>): string
  {
    Layout(Entries(table), |table|) + "\n\n"
  }

  /** Entries `lo` to `hi` (excluded), each followed by `", "`. */
  function Cells(texts: seq<string>, lo: nat, hi: nat): string
    requires lo <= hi <= |texts|
    decreases hi
  {
    if hi == lo then "" else Cells(texts, lo, hi - 1) + Cell(texts[hi - 1])
  }

  /** The first `n` rows of 16 entries, each on a line of its own. */
  function Rows(texts: seq<string>, n: nat): string
    requires 16 * n <= |texts|
  {
    if n == 0 then "" else Rows(texts, n - 1) + "\n" + Cells(texts, 16 * (n - 1), 16 * n)
  }

  /** A line break before the first entry of every row. */
  lemma RowStart(q: nat)
    ensures Break(16 * q) == "\n"
  {
  }

  /** No line break inside a row: the 2nd to 16th entries of row `q` follow no break. */
  lemma InsideRow(q: nat, k: nat)
    requires 0 < k < 16
    ensures Break(16 * q + k) == ""
  {
  }

  /** Within a row: after `j` entries of row `q`, the text is the rows before, a line break
      and those `j` entries. */
  lemma {:induction false} LayoutWithinRow(texts: seq<string>, q: nat, j: nat)
    requires 1 <= j <= 16 && 16 * q + j <= |texts|
    ensures Layout(texts, 16 * q + j) == Layout(texts, 16 * q) + "\n" + Cells(texts, 16 * q, 16 * q + j)
  {
    if j > 1 {
      LayoutWithinRow(texts, q, j - 1);
      InsideRow(q, j - 1);
    } else {
      RowStart(q);
    }
  }

  /** After `n` full rows of 16 entries the loop has printed exactly those rows. */
  lemma {:induction false} LayoutRows(texts: seq<string>, n: nat)
    requires 16 * n <= |texts|
    ensures Layout(texts, 16 * n) == Rows(texts, n)
  {
    if n > 0 {
      LayoutRows(texts, n - 1);
      LayoutWithinRow(texts, n - 1, 16);
    }
  }

  /** A table of 16 `n` entries prints as `n` rows of 16 values, then two line breaks; the
      256-entry tables print as 16 rows of 16. */
  lemma PrintedRows(table: seq<Field>, n: nat)
    requires |table| == 16 * n
    ensures Printed(table) == Rows(Entries(table), n) + "\n\n"
  {
    LayoutRows(Entries(table), n);
  }

  /** `print_lkup_table(table)`, lines 30-36, with the printed text returned. */
  method PrintTable(table: seq<Field>) returns (out: string)
    ensures out == Printed(table)
  {
    ghost var texts := Entries(table);
    out := "";
    for i := 0 to |table|
      invariant out == Layout(texts, i)
    {
      ghost var before := out;
      if i % 16 == 0 {
        out := out + "\n";
      }
      assert out == before + Break(i);
      out := out + FieldText(table[i]) + ", ";
      assert out == Layout(texts, i) + Break(i) + Cell(texts[i]);
    }
    out := out + "\n\n";
  }

  /** Lines 38-45: each table under its title line. */
  function Report(t: Tables): string
  {
    "Address modes lkup:\n" + Printed(t.modes)
    + "Num cycles base lkup:\n" + Printed(t.cycles)
    + "Instruction bytes lkup:\n" + Printed(t.bytes)
  }

  /** The script's output: the report of its tables, or the exception that ends it before
      anything is printed. */
  function Output(contents: string): Result<string, ScriptError>
  {
    match Script(contents)
    case Err(e) => Err(e)
    case Ok(t) => Ok(Report(t))
  }

  /** The whole script once the file is read, with its output returned. */
  method MakeLookupTables(contents: string) returns (r: Result<string, ScriptError>)
    ensures r == Output(contents)
  {
    var tables := MakeTables(contents);
    if tables.Err? {
      return Err(tables.error);
    }
    var t := tables.value;
    var modes := PrintTable(t.modes);
    var cycles := PrintTable(t.cycles);
    var bytes := PrintTable(t.bytes);
    r := Ok("Address modes lkup:\n" + modes + "Num cycles base lkup:\n" + cycles
            + "Instruction bytes lkup:\n" + bytes);
  }
}
