/**
 The catalog file: packages/persistence/src/catalog-seed.ts (section 2 of RFC 4180).

 `Read` says what the character machine makes of a text; a `Document` is a file as a writer may lay it out.
 */
module CatalogCsv {
  import opened Prelude

  type Record = seq<string>

  datatype CsvError = Unterminated | UnexpectedHeader | InvalidRow(number: nat)

  // ------------------------------------------------------------- the machine

  predicate IsLineEnd(c: char) {
    c == '\n' || c == '\r'
  }

  /** How many characters the line end at the start of `s` takes: CR LF is one line end. */
  function LineEndLength(s: string): (n: nat)
    requires s != ""
    ensures 1 <= n <= |s|
  {
    if s[0] == '\r' && |s| > 1 && s[1] == '\n' then 2 else 1
  }

  function Prepend(records: seq<Record>, rest: Option<seq<Record>>): Option<seq<Record>> {
    if rest.None? then None else Some(records + rest.value)
  }

  /** The records that the rest of a text completes, or `None` when it ends inside quotes. */
  function Read(s: string, quoted: bool, cell: string, row: Record): Option<seq<Record>>
    decreases |s|
  {
    if s == "" then
      if quoted then None else Some(if cell != "" || row != [] then [row + [cell]] else [])
    else if s[0] == '"' then
      if quoted && |s| > 1 && s[1] == '"' then Read(s[2..], quoted, cell + "\"", row)
      else Read(s[1..], !quoted, cell, row)
    else if s[0] == ',' && !quoted then Read(s[1..], quoted, "", row + [cell])
    else if IsLineEnd(s[0]) && !quoted then
      Prepend([row + [cell]], Read(s[LineEndLength(s)..], quoted, "", []))
    else Read(s[1..], quoted, cell + [s[0]], row)
  }

  function Quotes(s: string): nat {
    if s == "" then 0 else (if s[0] == '"' then 1 else 0) + Quotes(s[1..])
  }

  /** The machine rejects exactly the texts with an odd number of quotes. */
  lemma {:induction false} UnterminatedIff(s: string, quoted: bool, cell: string, row: Record)
    ensures Read(s, quoted, cell, row).None? <==> (Quotes(s) % 2 == 1) != quoted
    decreases |s|
  {
    if s == "" {
    } else if s[0] == '"' {
      if quoted && |s| > 1 && s[1] == '"' {
        assert s[1..][1..] == s[2..];
        UnterminatedIff(s[2..], quoted, cell + "\"", row);
      } else {
        UnterminatedIff(s[1..], !quoted, cell, row);
      }
    } else if s[0] == ',' && !quoted {
      UnterminatedIff(s[1..], quoted, "", row + [cell]);
    } else if IsLineEnd(s[0]) && !quoted {
      if LineEndLength(s) == 2 {
        assert s[1..][1..] == s[2..];
      }
      UnterminatedIff(s[LineEndLength(s)..], quoted, "", []);
    } else {
      UnterminatedIff(s[1..], quoted, cell + [s[0]], row);
    }
  }

  // ---------------------------------------------------------------- the rows

  datatype Brand = Valden | Solenne

  datatype SeedRow = SeedRow(brand: Brand, sku: string, name: Option<string>, color: Option<string>)

  function BrandName(brand: Brand): string {
    match brand
    case Valden => "valden"
    case Solenne => "solenne"
  }

  function Text(value: Option<string>): string {
    if value.Some? then value.value else ""
  }

  function NullIfEmpty(text: string): Option<string> {
    if text == "" then None else Some(text)
  }

  function RowOf(record: Record): Option<SeedRow> {
    if |record| != 4 || record[1] == "" || (record[0] != "valden" && record[0] != "solenne") then None
    else
      var brand := if record[0] == "valden" then Valden else Solenne;
      Some(SeedRow(brand, record[1], NullIfEmpty(record[2]), NullIfEmpty(record[3])))
  }

  function RowsOf(records: seq<Record>, number: nat): Result<seq<SeedRow>, CsvError> {
    if records == [] then Ok([])
    else if RowOf(records[0]).None? then Err(InvalidRow(number))
    else
      match RowsOf(records[1..], number + 1)
      case Err(e) => Err(e)
      case Ok(rows) => Ok([RowOf(records[0]).value] + rows)
  }

  predicate NotBlank(record: Record) {
    exists value | value in record :: value != ""
  }

  function JoinCommas(record: Record): string {
    if record == [] then "" else if |record| == 1 then record[0] else record[0] + "," + JoinCommas(record[1..])
  }

  const HEADER := "brand,sku,name,color"

  function RowsOfFile(records: seq<Record>): Result<seq<SeedRow>, CsvError> {
    if records == [] || JoinCommas(records[0]) != HEADER then Err(UnexpectedHeader)
    else RowsOf(Filter(NotBlank, records[1..]), 2)
  }

  function ParseCatalog(csv: string): Result<seq<SeedRow>, CsvError> {
    match Read(csv, false, "", [])
    case None => Err(Unterminated)
    case Some(records) => RowsOfFile(records)
  }

  /** The character loop. */
  method ParseCatalogCsv(csv: string) returns (result: Result<seq<SeedRow>, CsvError>)
    ensures result == ParseCatalog(csv)
  {
    var records: seq<Record>, cell, row: Record, quoted := [], "", [], false;
    var index := 0;
    assert csv[0..] == csv;
    PrependNothing(Read(csv, false, "", []));
    while index < |csv|
      invariant index <= |csv|
      invariant Read(csv, false, "", []) == Prepend(records, Read(csv[index..], quoted, cell, row))
    {
      var character := csv[index];
      ghost var s := csv[index..];
      assert s[1..] == csv[index + 1..] && (|s| > 1 ==> s[2..] == csv[index + 2..]);
      if character == '"' {
        if quoted && index + 1 < |csv| && csv[index + 1] == '"' {
          cell := cell + "\"";
          index := index + 1;
        } else {
          quoted := !quoted;
        }
      } else if character == ',' && !quoted {
        row := row + [cell];
        cell := "";
      } else if IsLineEnd(character) && !quoted {
        if character == '\r' && index + 1 < |csv| && csv[index + 1] == '\n' {
          index := index + 1;
        }
        row := row + [cell];
        PrependTwice(records, [row], Read(csv[index + 1..], false, "", []));
        records := records + [row];
        row := [];
        cell := "";
      } else {
        cell := cell + [character];
      }
      index := index + 1;
    }
    assert csv[|csv|..] == "";
    if quoted {
      return Err(Unterminated);
    }
    assert records + [] == records;
    if cell != "" || row != [] {
      records := records + [row + [cell]];
    }
    return RowsOfFile(records);
  }

  lemma PrependNothing(rest: Option<seq<Record>>)
    ensures Prepend([], rest) == rest
  {
    if rest.Some? {
      assert [] + rest.value == rest.value;
    }
  }

  lemma PrependTwice(a: seq<Record>, b: seq<Record>, rest: Option<seq<Record>>)
    ensures Prepend(a, Prepend(b, rest)) == Prepend(a + b, rest)
  {
    if rest.Some? {
      assert a + (b + rest.value) == a + b + rest.value;
    }
  }

  // ------------------------------------------------------------- the printer

  /** A field may be written as it is, or between quotes. */
  datatype Field = Plain(text: string) | Quoted(text: string)

  datatype LineEnd = Lf | Cr | CrLf | EndOfFile

  datatype Line = Line(fields: seq<Field>, end: LineEnd)

  type Document = seq<Line>

  /** Quotes are doubled. */
  function Escape(text: string): string {
    if text == "" then ""
    else (if text[0] == '"' then "\"\"" else [text[0]]) + Escape(text[1..])
  }

  function PrintField(field: Field): string {
    match field
    case Plain(text) => text
    case Quoted(text) => "\"" + (Escape(text) + "\"")
  }

  function PrintFields(fields: seq<Field>): string {
    if fields == [] then ""
    else if |fields| == 1 then PrintField(fields[0])
    else PrintField(fields[0]) + ("," + PrintFields(fields[1..]))
  }

  function PrintEnd(end: LineEnd): string {
    match end
    case Lf => "\n"
    case Cr => "\r"
    case CrLf => "\r\n"
    case EndOfFile => ""
  }

  function Print(lines: Document): string {
    if lines == [] then ""
    else PrintFields(lines[0].fields) + (PrintEnd(lines[0].end) + Print(lines[1..]))
  }

  predicate Special(c: char) {
    c == '"' || c == ',' || IsLineEnd(c)
  }

  /** A plain field holds none of the characters that need quotes. */
  predicate FieldOk(field: Field) {
    field.Plain? ==> forall c | c in field.text :: !Special(c)
  }

  function Texts(fields: seq<Field>): Record {
    if fields == [] then [] else [fields[0].text] + Texts(fields[1..])
  }

  function Values(lines: Document): seq<Record> {
    if lines == [] then [] else [Texts(lines[0].fields)] + Values(lines[1..])
  }

  /**
   A line has a field; only the last line may lack its line end, and then it must not be a single empty field; a lone CR
   is not followed by the LF of an empty line, because the two would be one line end.
   */
  predicate DocumentOk(lines: Document) {
    lines != [] ==>
      var line := lines[0];
      && line.fields != []
      && (forall field | field in line.fields :: FieldOk(field))
      && (line.end == EndOfFile ==> |lines| == 1 && Texts(line.fields) != [""])
      && (line.end == Cr ==> !("\n" <= Print(lines[1..])))
      && DocumentOk(lines[1..])
  }

  // ----------------------------------------------------------- the round trip

  lemma {:induction false} ReadPlain(text: string, rest: string, cell: string, row: Record)
    requires forall c | c in text :: !Special(c)
    ensures Read(text + rest, false, cell, row) == Read(rest, false, cell + text, row)
  {
    if text == "" {
      assert text + rest == rest && cell + text == cell;
    } else {
      var s := text + rest;
      assert s[0] == text[0] && text[0] in text && s[1..] == text[1..] + rest;
      ReadPlain(text[1..], rest, cell + [text[0]], row);
      assert cell + [text[0]] + text[1..] == cell + text;
    }
  }

  /** Where a field may end: not before a quote. */
  predicate FieldEnds(rest: string) {
    rest == "" || rest[0] != '"'
  }

  lemma {:induction false} ReadQuoted(text: string, rest: string, cell: string, row: Record)
    requires FieldEnds(rest)
    ensures Read(Escape(text) + ("\"" + rest), true, cell, row) == Read(rest, false, cell + text, row)
  {
    var s := Escape(text) + ("\"" + rest);
    if text == "" {
      assert s == "\"" + rest && s[1..] == rest && cell + text == cell;
    } else {
      var tail := Escape(text[1..]) + ("\"" + rest);
      ReadQuoted(text[1..], rest, cell + [text[0]], row);
      assert cell + [text[0]] + text[1..] == cell + text;
      if text[0] == '"' {
        assert s[0] == '"' && s[1] == '"' && s[2..] == tail;
      } else {
        assert s[0] == text[0] && s[1..] == tail;
      }
    }
  }

  lemma {:induction false} ReadField(field: Field, rest: string, row: Record)
    requires FieldOk(field) && FieldEnds(rest)
    ensures Read(PrintField(field) + rest, false, "", row) == Read(rest, false, field.text, row)
  {
    assert "" + field.text == field.text;
    match field
    case Plain(text) => ReadPlain(text, rest, "", row);
    case Quoted(text) =>
      var s := PrintField(field) + rest;
      assert s[0] == '"' && s[1..] == Escape(text) + ("\"" + rest);
      ReadQuoted(text, rest, "", row);
  }

  lemma PrintedFields(fields: seq<Field>, rest: string)
    requires fields != []
    ensures PrintFields(fields) + rest
         == PrintField(fields[0]) + if |fields| == 1 then rest else "," + (PrintFields(fields[1..]) + rest)
  {
    hide PrintField;
    if |fields| > 1 {
      var first, more := PrintField(fields[0]), PrintFields(fields[1..]);
      Regrouped(first, ",", more, rest);
    }
  }

  /** A whole line of fields is read up to its last cell. */
  lemma {:induction false} ReadFields(fields: seq<Field>, rest: string, row: Record)
    requires fields != [] && FieldEnds(rest) && forall field | field in fields :: FieldOk(field)
    ensures var texts := Texts(fields);
      && texts != []
      && Read(PrintFields(fields) + rest, false, "", row)
        == Read(rest, false, texts[|texts| - 1], row + texts[..|texts| - 1])
  {
    hide Read, PrintField, FieldOk, PrintFields;
    assert fields[0] in fields;
    PrintedFields(fields, rest);
    if |fields| == 1 {
      ReadField(fields[0], rest, row);
      assert Texts(fields) == [fields[0].text];
      assert row + [] == row;
    } else {
      var tail := PrintFields(fields[1..]) + rest;
      ReadField(fields[0], "," + tail, row);
      ReadComma(tail, fields[0].text, row);
      ReadFields(fields[1..], rest, row + [fields[0].text]);
      LastOfMore(row, fields[0].text, Texts(fields[1..]));
    }
  }

  lemma {:induction false} ReadComma(tail: string, cell: string, row: Record)
    ensures Read("," + tail, false, cell, row) == Read(tail, false, "", row + [cell])
  {
    assert ("," + tail)[1..] == tail;
  }

  lemma LastOfMore(row: Record, text: string, texts: Record)
    requires texts != []
    ensures var all := [text] + texts;
      && all[|all| - 1] == texts[|texts| - 1]
      && row + [text] + texts[..|texts| - 1] == row + all[..|all| - 1]
  {
  }

  lemma {:induction false} ReadEnd(end: LineEnd, rest: string, cell: string, row: Record)
    requires end != EndOfFile && (end == Cr ==> !("\n" <= rest))
    ensures Read(PrintEnd(end) + rest, false, cell, row) == Prepend([row + [cell]], Read(rest, false, "", []))
  {
    var s := PrintEnd(end) + rest;
    assert s[LineEndLength(s)..] == rest;
  }

  /** The machine gives back the values of every document, however its fields are quoted and its lines are ended. */
  lemma {:induction false} ReadInvertsPrint(lines: Document)
    requires DocumentOk(lines)
    ensures Read(Print(lines), false, "", []) == Some(Values(lines))
  {
    if lines == [] {
      return;
    }
    hide Read, Texts, PrintFields;
    var line, more := lines[0], lines[1..];
    var texts := Texts(line.fields);
    assert Print(lines) == PrintFields(line.fields) + (PrintEnd(line.end) + Print(more));
    ReadFields(line.fields, PrintEnd(line.end) + Print(more), []);
    AllOf(texts);
    if line.end == EndOfFile {
      assert more == [] && PrintEnd(line.end) + Print(more) == "";
      LastCell(texts);
      assert Values(lines) == [texts];
    } else {
      ReadEnd(line.end, Print(more), texts[|texts| - 1], [] + texts[..|texts| - 1]);
      ReadInvertsPrint(more);
    }
  }

  lemma AllOf(texts: Record)
    requires texts != []
    ensures [] + texts[..|texts| - 1] + [texts[|texts| - 1]] == texts
  {
  }

  lemma LastCell(texts: Record)
    requires texts != [] && texts != [""]
    ensures Read("", false, texts[|texts| - 1], [] + texts[..|texts| - 1]) == Some([texts])
  {
    assert [] + texts[..|texts| - 1] + [texts[|texts| - 1]] == texts;
    if |texts| == 1 {
      assert texts == [texts[0]];
    }
  }

  // ------------------------------------------------------- catalogs, and rows

  function RecordOf(row: SeedRow): Record {
    [BrandName(row.brand), row.sku, Text(row.name), Text(row.color)]
  }

  predicate RowOk(row: SeedRow) {
    row.sku != "" && row.name != Some("") && row.color != Some("")
  }

  /** A row survives being written and read exactly when it has an SKU and writes its missing parts as missing. */
  lemma RowRoundTripIff(row: SeedRow)
    ensures RowOf(RecordOf(row)) == Some(row) <==> RowOk(row)
  {
  }

  /** A record is a row exactly when it has four cells, an SKU and one of the two brands. */
  lemma RowOfIff(record: Record)
    ensures RowOf(record).Some? <==>
      |record| == 4 && |record[1]| > 0 && exists brand: Brand :: record[0] == BrandName(brand)
    ensures RowOf(record).Some? ==> RecordOf(RowOf(record).value) == record
  {
    assert BrandName(Valden) == "valden" && BrandName(Solenne) == "solenne";
    if RowOf(record).Some? {
      var brand := RowOf(record).value.brand;
      assert record[0] == BrandName(brand);
    }
  }

  lemma {:induction false} RowsAreNotBlank(rows: seq<SeedRow>)
    ensures Filter(NotBlank, Map(RecordOf, rows)) == Map(RecordOf, rows)
  {
    if rows != [] {
      assert BrandName(rows[0].brand) in RecordOf(rows[0]);
      assert Map(RecordOf, rows)[1..] == Map(RecordOf, rows[1..]);
      RowsAreNotBlank(rows[1..]);
    }
  }

  /** The rows are accepted together or not at all; the error names the first bad one. */
  lemma {:induction false} RowsOfIff(records: seq<Record>, number: nat)
    ensures RowsOf(records, number).Ok? <==> forall record | record in records :: RowOf(record).Some?
    ensures RowsOf(records, number).Err? ==>
      exists k :: 0 <= k < |records| && RowsOf(records, number) == Err(InvalidRow(number + k))
        && RowOf(records[k]).None?
                  && forall j :: 0 <= j < k ==> RowOf(records[j]).Some?
  {
    if records != [] && RowOf(records[0]).Some? {
      RowsOfIff(records[1..], number + 1);
      if RowsOf(records[1..], number + 1).Err? {
        var k :| 0 <= k < |records[1..]| && RowsOf(records[1..], number + 1) == Err(InvalidRow(number + 1 + k))
                 && RowOf(records[1..][k]).None? && forall j :: 0 <= j < k ==> RowOf(records[1..][j]).Some?;
        assert records[k + 1] == records[1..][k];
        assert forall j :: 0 < j < k + 1 ==> records[j] == records[1..][j - 1];
      }
    }
  }

  /** The whole file: when it is accepted, and when not. */
  lemma {:induction false} ParseSucceedsIff(csv: string)
    ensures ParseCatalog(csv).Ok? <==>
      && Quotes(csv) % 2 == 0
      && var records := Read(csv, false, "", []);
         && records.Some? && records.value != [] && JoinCommas(records.value[0]) == HEADER
         && forall record | record in records.value[1..] && NotBlank(record) :: RowOf(record).Some?
    ensures ParseCatalog(csv) == Err(Unterminated) <==> Quotes(csv) % 2 == 1
    ensures forall n: nat :: ParseCatalog(csv) == Err(InvalidRow(n)) ==>
      var rows := Filter(NotBlank, Read(csv, false, "", []).value[1..]);
      2 <= n < |rows| + 2 && RowOf(rows[n - 2]).None? && forall k :: 0 <= k < n - 2 ==> RowOf(rows[k]).Some?
  {
    hide Read, Quotes, JoinCommas, RowsOf;
    UnterminatedIff(csv, false, "", []);
    if Read(csv, false, "", []).Some? && Read(csv, false, "", []).value != [] {
      RowsOfIff(Filter(NotBlank, Read(csv, false, "", []).value[1..]), 2);
    }
  }

  lemma {:induction false} RowsRoundTrip(rows: seq<SeedRow>, number: nat)
    requires forall row | row in rows :: RowOk(row)
    ensures RowsOf(Map(RecordOf, rows), number) == Ok(rows)
  {
    if rows != [] {
      assert rows[0] in rows;
      assert Map(RecordOf, rows)[1..] == Map(RecordOf, rows[1..]);
      RowRoundTripIff(rows[0]);
      RowsRoundTrip(rows[1..], number + 1);
      assert [rows[0]] + rows[1..] == rows;
    }
  }

  lemma {:induction false} ValuesAppend(a: Document, b: Document)
    ensures Values(a + b) == Values(a) + Values(b)
  {
    if a == [] {
      assert a + b == b;
    } else {
      assert (a + b)[0] == a[0] && (a + b)[1..] == a[1..] + b;
      ValuesAppend(a[1..], b);
    }
  }

  /** A line without any text, wherever it is put below the header, changes neither the rows nor the error. */
  lemma {:induction false} BlankLinesAreSkipped(head: Document, blank: Line, tail: Document)
    requires DocumentOk(head + tail) && DocumentOk(head + [blank] + tail) && head != []
    requires forall text | text in Texts(blank.fields) :: text == ""
    ensures ParseCatalog(Print(head + [blank] + tail)) == ParseCatalog(Print(head + tail))
  {
    hide Read, Print, DocumentOk, RowsOf, JoinCommas, Values, NotBlank, Filter;
    ReadInvertsPrint(head + tail);
    ReadInvertsPrint(head + [blank] + tail);
    ValuesAppend(head, tail);
    ValuesAppend(head + [blank], tail);
    ValuesAppend(head, [blank]);
    FirstValue(head);
    OneValue(blank);
    BlankRecord(Values(head)[1..], Texts(blank.fields), Values(tail));
    assert Values(head + tail)[1..] == Values(head)[1..] + Values(tail);
    assert Values(head + [blank] + tail)[1..] == Values(head)[1..] + ([Texts(blank.fields)] + Values(tail));
  }

  lemma FirstValue(lines: Document)
    requires lines != []
    ensures Values(lines) != []
  {
  }

  lemma OneValue(line: Line)
    ensures Values([line]) == [Texts(line.fields)]
  {
    assert Values([line]) == [Texts(line.fields)] + Values([line][1..]);
  }

  lemma BlankRecord(more: seq<Record>, record: Record, rest: seq<Record>)
    requires forall text | text in record :: text == ""
    ensures Filter(NotBlank, more + ([record] + rest)) == Filter(NotBlank, more + rest)
  {
    FilterAppend(NotBlank, more, rest);
    FilterAppend(NotBlank, more, [record] + rest);
    assert ([record] + rest)[1..] == rest;
  }

  /** Parsing a printed catalog gives its rows back; blank lines between them do not matter. */
  lemma {:induction false} CatalogRoundTrip(lines: Document, rows: seq<SeedRow>)
    requires DocumentOk(lines) && lines != []
    requires JoinCommas(Texts(lines[0].fields)) == HEADER
    requires Filter(NotBlank, Values(lines[1..])) == Map(RecordOf, rows)
    requires forall row | row in rows :: RowOk(row)
    ensures ParseCatalog(Print(lines)) == Ok(rows)
  {
    ReadInvertsPrint(lines);
    assert Values(lines)[1..] == Values(lines[1..]);
    RowsRoundTrip(rows, 2);
  }

  /** The usual case: a header and the rows, and nothing else. */
  lemma {:induction false} PlainCatalogRoundTrip(lines: Document, rows: seq<SeedRow>)
    requires DocumentOk(lines)
    requires Values(lines) == [["brand", "sku", "name", "color"]] + Map(RecordOf, rows)
    requires forall row | row in rows :: RowOk(row)
    ensures ParseCatalog(Print(lines)) == Ok(rows)
  {
    RowsAreNotBlank(rows);
    assert Values(lines) == [Texts(lines[0].fields)] + Values(lines[1..]);
    assert Values(lines)[1..] == Values(lines[1..]) == Map(RecordOf, rows);
    HeaderText();
    CatalogRoundTrip(lines, rows);
  }

  lemma HeaderText()
    ensures JoinCommas(["brand", "sku", "name", "color"]) == HEADER
  {
    var h := ["brand", "sku", "name", "color"];
    assert h[1..] == ["sku", "name", "color"] && h[1..][1..] == ["name", "color"] && h[1..][1..][1..] == ["color"];
    assert JoinCommas(h[1..][1..]) == "name,color";
    assert JoinCommas(h[1..]) == "sku,name,color";
  }
}
