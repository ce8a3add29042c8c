/**
 The legacy export reader: a hand-written CSV state machine, proved to invert every rendering that
 section 2 of RFC 4180 allows, and the fold that collapses repeated source records.
 */
module LegacySources {
  import opened Common
  import opened Text

  datatype Parsed = Rows(rows: seq<seq<string>>) | InvalidEncoding

  const QUOTE: char := '\"'

  /** The parser's mutable variables. */
  datatype State = State(rows: seq<seq<string>>, row: seq<string>, field: string, quoted: bool, closed: bool)

  const START: State := State([], [], "", false, false)

  function EndField(st: State): State { st.(row := st.row + [st.field], field := "", closed := false) }

  function EndRow(st: State): State
  {
    var field := if st.field != "" && st.field[|st.field| - 1] == '\r' && !st.closed then st.field[..|st.field| - 1] else st.field;
    State(st.rows + [st.row + [field]], [], "", st.quoted, false)
  }

  function Finish(st: State): Parsed
  {
    if st.quoted then InvalidEncoding
    else if st.field != "" || st.row != [] then Rows(st.rows + [st.row + [st.field]])
    else Rows(st.rows)
  }

  /** The state machine over the remaining input. */
  function Scan(s: string, st: State): Parsed
    decreases |s|
  {
    if s == "" then Finish(st)
    else if st.quoted then
      if s[0] != QUOTE then Scan(s[1..], st.(field := st.field + [s[0]]))
      else if |s| > 1 && s[1] == QUOTE then Scan(s[2..], st.(field := st.field + [QUOTE]))
      else Scan(s[1..], st.(quoted := false, closed := true))
    else if s[0] == QUOTE && st.field == "" && !st.closed then Scan(s[1..], st.(quoted := true))
    else if s[0] == ',' then Scan(s[1..], EndField(st))
    else if s[0] == '\n' then Scan(s[1..], EndRow(st))
    else if s[0] == '\r' && |s| > 1 && s[1] == '\n' then Scan(s[1..], st)
    else if st.closed then InvalidEncoding
    else Scan(s[1..], st.(field := st.field + [s[0]]))
  }

  method ParseCsv(source: string) returns (result: Parsed)
    ensures result == Scan(source, START)
  {
    var rows: seq<seq<string>>, row: seq<string>, field: string := [], [], "";
    var quoted, closed := false, false;
    var i := 0;
    while i < |source|
      invariant 0 <= i <= |source|
      invariant Scan(source[i..], State(rows, row, field, quoted, closed)) == Scan(source, START)
    {
      var c := source[i];
      var next := if i + 1 < |source| then Some(source[i + 1]) else None;
      assert source[i..][1..] == source[i + 1..];
      assert next.Some? ==> source[i..][2..] == source[i + 2..];
      i := i + 1;
      if quoted {
        if c == QUOTE {
          if next == Some(QUOTE) {
            i := i + 1;
            field := field + [QUOTE];
          } else {
            quoted := false;
            closed := true;
          }
        } else {
          field := field + [c];
        }
      } else if c == QUOTE && field == "" && !closed {
        quoted := true;
      } else if c == ',' {
        row, field, closed := row + [field], "", false;
      } else if c == '\n' {
        if field != "" && field[|field| - 1] == '\r' && !closed {
          field := field[..|field| - 1];
        }
        rows, row, field, closed := rows + [row + [field]], [], "", false;
      } else if c == '\r' && next == Some('\n') {
      } else if closed {
        return InvalidEncoding;
      } else {
        field := field + [c];
      }
    }
    if quoted {
      return InvalidEncoding;
    }
    if field != "" || row != [] {
      rows := rows + [row + [field]];
    }
    result := Rows(rows);
  }

  // ---------------------------------------------------------------- renderings

  /** A field as written: between quotes with inner quotes doubled, or as it is. */
  datatype Cell = Quoted(text: string) | Bare(text: string)

  datatype Terminator = Lf | CrLf | Eof

  datatype Line = Line(cells: seq<Cell>, end: Terminator)

  /** What may stand without quotes: no separator, no leading quote, no trailing carriage return. */
  predicate BareSafe(text: string)
  {
    && ',' !in text && '\n' !in text
    && (text != "" ==> text[0] != QUOTE && text[|text| - 1] != '\r')
  }

  predicate ValidCell(cell: Cell) { cell.Bare? ==> BareSafe(cell.text) }

  /** Lines have at least one field, and only the last may lack its terminator. */
  predicate ValidDocument(lines: seq<Line>)
  {
    && (forall i | 0 <= i < |lines| :: lines[i].cells != [] && forall j | 0 <= j < |lines[i].cells| :: ValidCell(lines[i].cells[j]))
    && (forall i | 0 <= i < |lines| - 1 :: lines[i].end != Eof)
  }

  function Escaped(text: string): string
  {
    if text == "" then "" else (if text[0] == QUOTE then [QUOTE, QUOTE] else [text[0]]) + Escaped(text[1..])
  }

  function RenderCell(cell: Cell): string
  {
    if cell.Quoted? then [QUOTE] + Escaped(cell.text) + [QUOTE] else cell.text
  }

  function RenderCells(cells: seq<Cell>): string
  {
    if cells == [] then ""
    else if |cells| == 1 then RenderCell(cells[0])
    else RenderCell(cells[0]) + "," + RenderCells(cells[1..])
  }

  function RenderEnd(end: Terminator): string { match end case Lf => "\n" case CrLf => "\r\n" case Eof => "" }

  function Render(lines: seq<Line>): string
  {
    if lines == [] then "" else RenderCells(lines[0].cells) + RenderEnd(lines[0].end) + Render(lines[1..])
  }

  function Texts(cells: seq<Cell>): (texts: seq<string>)
    ensures |texts| == |cells|
  {
    if cells == [] then [] else [cells[0].text] + Texts(cells[1..])
  }

  function Values(lines: seq<Line>): seq<seq<string>>
  {
    if lines == [] then [] else [Texts(lines[0].cells)] + Values(lines[1..])
  }

  // ---------------------------------------------------------------- reading back one field

  /** What may follow a field: the end, a separator or a row terminator. */
  predicate Delimits(rest: string)
  {
    rest == "" || rest[0] == ',' || rest[0] == '\n' || (|rest| > 1 && rest[0] == '\r' && rest[1] == '\n')
  }

  lemma {:induction false} ScanQuoted(text: string, rest: string, st: State)
    requires st.quoted && (rest == "" || rest[0] != QUOTE)
    ensures Scan(Escaped(text) + [QUOTE] + rest, st) == Scan(rest, st.(field := st.field + text, quoted := false, closed := true))
    decreases |text|
  {
    var s := Escaped(text) + [QUOTE] + rest;
    if text == "" {
      assert s[1..] == rest;
      assert st.field + text == st.field;
    } else {
      var next := st.(field := st.field + [text[0]]);
      var tail := Escaped(text[1..]) + [QUOTE] + rest;
      assert if text[0] == QUOTE then s[0] == QUOTE && s[1] == QUOTE && s[2..] == tail else s[0] == text[0] && s[1..] == tail;
      ScanQuoted(text[1..], rest, next);
      assert next.field + text[1..] == st.field + text;
    }
  }

  /** Bare text read from the middle of a field; only the first character may not be a quote. */
  lemma {:induction false} ScanBare(text: string, rest: string, st: State)
    requires !st.quoted && !st.closed && ',' !in text && '\n' !in text
    requires text != "" ==> (st.field == "" ==> text[0] != QUOTE) && text[|text| - 1] != '\r'
    ensures Scan(text + rest, st) == Scan(rest, st.(field := st.field + text))
    decreases |text|
  {
    if text == "" {
      assert text + rest == rest && st.field + text == st.field;
    } else {
      var s := text + rest;
      assert s[1..] == text[1..] + rest;
      assert text[0] in text;
      if |text| > 1 {
        assert text[1] in text && s[1] == text[1];
      }
      var next := st.(field := st.field + [text[0]]);
      assert Scan(s, st) == Scan(s[1..], next);
      ScanBare(text[1..], rest, next);
      assert next.field + text[1..] == st.field + text;
    }
  }

  /** A field at the start of a cell leaves its text, and remembers whether it was quoted. */
  lemma ScanCell(cell: Cell, rest: string, st: State)
    requires ValidCell(cell) && Delimits(rest) && !st.quoted && !st.closed && st.field == ""
    ensures Scan(RenderCell(cell) + rest, st) == Scan(rest, st.(field := cell.text, closed := cell.Quoted?))
  {
    assert "" + cell.text == cell.text;
    match cell
    case Quoted(text) =>
      var s := RenderCell(cell) + rest;
      assert s[1..] == Escaped(text) + [QUOTE] + rest;
      ScanQuoted(text, rest, st.(quoted := true));
    case Bare(text) => ScanBare(text, rest, st);
  }

  // ---------------------------------------------------------------- reading back rows

  /** The state between two cells of a row. */
  predicate AtCell(st: State) { !st.quoted && !st.closed && st.field == "" }

  lemma ScanFirstCell(cells: seq<Cell>, rest: string, st: State)
    requires |cells| > 1 && ValidCell(cells[0]) && AtCell(st)
    ensures Scan(RenderCells(cells) + rest, st) == Scan(RenderCells(cells[1..]) + rest, st.(row := st.row + [cells[0].text]))
  {
    var tail := RenderCells(cells[1..]) + rest;
    SeparatedText(RenderCell(cells[0]), RenderCells(cells[1..]), rest);
    ScanCell(cells[0], "," + tail, st);
    ScanComma(tail, st.(field := cells[0].text, closed := cells[0].Quoted?));
  }

  lemma SeparatedText(a: string, b: string, rest: string)
    ensures a + "," + b + rest == a + ("," + (b + rest))
  {
  }

  lemma ScanComma(tail: string, st: State)
    requires !st.quoted
    ensures Scan("," + tail, st) == Scan(tail, EndField(st))
  {
    assert ("," + tail)[1..] == tail;
  }

  /** The state once the last cell has been read but not yet ended. */
  function AfterCells(cells: seq<Cell>, st: State): State
    requires cells != []
  {
    st.(row := st.row + Texts(cells)[..|cells| - 1], field := cells[|cells| - 1].text, closed := cells[|cells| - 1].Quoted?)
  }

  lemma AfterCellsStep(cells: seq<Cell>, st: State)
    requires |cells| > 1
    ensures AfterCells(cells, st) == AfterCells(cells[1..], st.(row := st.row + [cells[0].text]))
  {
    assert cells[1..][|cells| - 2] == cells[|cells| - 1];
    assert st.row + [cells[0].text] + Texts(cells[1..])[..|cells| - 2] == st.row + Texts(cells)[..|cells| - 1];
  }

  lemma AfterOneCell(cells: seq<Cell>, st: State)
    requires |cells| == 1
    ensures AfterCells(cells, st) == st.(field := cells[0].text, closed := cells[0].Quoted?)
  {
    assert st.row + Texts(cells)[..0] == st.row;
  }

  lemma {:induction false} ScanCells(cells: seq<Cell>, rest: string, st: State)
    requires cells != [] && (forall j | 0 <= j < |cells| :: ValidCell(cells[j]))
    requires Delimits(rest) && AtCell(st)
    ensures Scan(RenderCells(cells) + rest, st) == Scan(rest, AfterCells(cells, st))
    decreases |cells|
  {
    if |cells| == 1 {
      ScanCell(cells[0], rest, st);
      AfterOneCell(cells, st);
    } else {
      ScanFirstCell(cells, rest, st);
      ScanCells(cells[1..], rest, st.(row := st.row + [cells[0].text]));
      AfterCellsStep(cells, st);
    }
  }

  lemma {:induction false} LastText(cells: seq<Cell>)
    requires cells != []
    ensures Texts(cells)[..|cells| - 1] + [cells[|cells| - 1].text] == Texts(cells)
    decreases |cells|
  {
    if |cells| > 1 {
      LastText(cells[1..]);
    }
  }

  lemma ScanEnd(end: Terminator, rest: string, st: State)
    requires end != Eof && !st.quoted
    ensures Scan(RenderEnd(end) + rest, st) == Scan(rest, EndRow(st))
  {
    var lf := "\n" + rest;
    assert lf[1..] == rest;
    if end == CrLf {
      assert ("\r\n" + rest)[1..] == lf;
    }
  }

  /** Ending a row keeps its last field, unless that ends in an unquoted carriage return. */
  lemma EndRowKeeps(st: State)
    requires st.closed || st.field == "" || st.field[|st.field| - 1] != '\r'
    ensures EndRow(st) == State(st.rows + [st.row + [st.field]], [], "", st.quoted, false)
  {
  }

  lemma AfterCellsRow(cells: seq<Cell>, st: State)
    requires cells != [] && st.row == []
    ensures AfterCells(cells, st).row + [AfterCells(cells, st).field] == Texts(cells)
  {
    var front := Texts(cells)[..|cells| - 1];
    LastText(cells);
    assert [] + front == front;
  }

  lemma LastKeepsReturn(cell: Cell)
    requires ValidCell(cell)
    ensures cell.Quoted? || cell.text == "" || cell.text[|cell.text| - 1] != '\r'
  {
  }

  lemma EndAfterCells(cells: seq<Cell>, st: State)
    requires cells != [] && ValidCell(cells[|cells| - 1]) && AtCell(st) && st.row == []
    ensures EndRow(AfterCells(cells, st)) == st.(rows := st.rows + [Texts(cells)])
  {
    var held := AfterCells(cells, st);
    LastKeepsReturn(cells[|cells| - 1]);
    AfterCellsRow(cells, st);
    EndRowKeeps(held);
    EmptyState(st, st.rows + [held.row + [held.field]]);
  }

  lemma EmptyState(st: State, rows: seq<seq<string>>)
    requires AtCell(st) && st.row == []
    ensures st.(rows := rows) == State(rows, [], "", false, false)
  {
  }

  /** A terminated line adds its row, whichever terminator it uses. */
  lemma ScanLine(line: Line, rest: string, st: State)
    requires line.cells != [] && (forall j | 0 <= j < |line.cells| :: ValidCell(line.cells[j])) && line.end != Eof
    requires AtCell(st) && st.row == []
    ensures Scan(RenderCells(line.cells) + RenderEnd(line.end) + rest, st) == Scan(rest, st.(rows := st.rows + [Texts(line.cells)]))
  {
    var after := RenderEnd(line.end) + rest;
    assert RenderCells(line.cells) + RenderEnd(line.end) + rest == RenderCells(line.cells) + after;
    assert Delimits(after);
    ScanCells(line.cells, after, st);
    ScanEnd(line.end, rest, AfterCells(line.cells, st));
    EndAfterCells(line.cells, st);
  }

  // ---------------------------------------------------------------- the round trip

  /** The one document shape the parser does not give back: it ends, unterminated, in a lone empty field. */
  predicate EndsInLoneEmpty(lines: seq<Line>)
  {
    lines != [] && lines[|lines| - 1].end == Eof && |lines[|lines| - 1].cells| == 1 && lines[|lines| - 1].cells[0].text == ""
  }

  function Readable(lines: seq<Line>): seq<Line>
  {
    if EndsInLoneEmpty(lines) then lines[..|lines| - 1] else lines
  }

  lemma ScanLastLine(line: Line, st: State)
    requires line.cells != [] && (forall j | 0 <= j < |line.cells| :: ValidCell(line.cells[j])) && AtCell(st) && st.row == []
    ensures Scan(RenderCells(line.cells), st)
            == Rows(st.rows + if |line.cells| == 1 && line.cells[0].text == "" then [] else [Texts(line.cells)])
  {
    var cells := line.cells;
    assert RenderCells(cells) + "" == RenderCells(cells);
    ScanCells(cells, "", st);
    AfterCellsRow(cells, st);
    assert st.rows + [] == st.rows;
  }

  function AfterLines(lines: seq<Line>, rows: seq<seq<string>>): Parsed { Rows(rows + Values(Readable(lines))) }

  lemma AfterLinesStep(lines: seq<Line>, rows: seq<seq<string>>)
    requires lines != [] && lines[0].end != Eof
    ensures AfterLines(lines, rows) == AfterLines(lines[1..], rows + [Texts(lines[0].cells)])
  {
    var first := Texts(lines[0].cells);
    ReadableTail(lines);
    assert rows + [first] + Values(Readable(lines[1..])) == rows + ([first] + Values(Readable(lines[1..])));
  }

  lemma ScanOnlyLine(lines: seq<Line>, st: State)
    requires ValidDocument(lines) && AtCell(st) && st.row == [] && lines != [] && lines[0].end == Eof
    ensures Scan(Render(lines), st) == AfterLines(lines, st.rows)
  {
    RenderLast(lines);
    ScanLastLine(lines[0], st);
  }

  lemma {:induction false} ScanLines(lines: seq<Line>, st: State)
    requires ValidDocument(lines) && AtCell(st) && st.row == []
    ensures Scan(Render(lines), st) == AfterLines(lines, st.rows)
    decreases |lines|
  {
    if lines == [] {
      assert st.rows + [] == st.rows;
    } else if lines[0].end == Eof {
      ScanOnlyLine(lines, st);
    } else {
      ScanLine(lines[0], Render(lines[1..]), st);
      ValidTail(lines);
      ScanLines(lines[1..], st.(rows := st.rows + [Texts(lines[0].cells)]));
      AfterLinesStep(lines, st.rows);
    }
  }

  lemma RenderLast(lines: seq<Line>)
    requires ValidDocument(lines) && lines != [] && lines[0].end == Eof
    ensures |lines| == 1 && Render(lines) == RenderCells(lines[0].cells) && Values(lines) == [Texts(lines[0].cells)]
    ensures Values(Readable(lines)) == if EndsInLoneEmpty(lines) then [] else [Texts(lines[0].cells)]
  {
    assert lines[1..] == [];
    assert lines[..0] == [];
  }

  lemma ValidTail(lines: seq<Line>)
    requires ValidDocument(lines) && lines != []
    ensures ValidDocument(lines[1..])
  {
    forall i | 0 <= i < |lines[1..]| ensures lines[1..][i] == lines[i + 1] {
    }
  }

  lemma ReadableTail(lines: seq<Line>)
    requires lines != [] && lines[0].end != Eof
    ensures Values(Readable(lines)) == [Texts(lines[0].cells)] + Values(Readable(lines[1..]))
  {
    if EndsInLoneEmpty(lines) {
      assert lines[1..][..|lines| - 2] == lines[..|lines| - 1][1..];
    }
  }

  lemma {:induction false} ValuesLength(lines: seq<Line>)
    ensures |Values(lines)| == |lines|
  {
    if lines != [] {
      ValuesLength(lines[1..]);
    }
  }

  /**
   Reading back any valid rendering (quoted or bare fields, LF or CRLF, with or without a final terminator)
   gives the values written, if and only if the document does not end in an unterminated lone empty field;
   then that last row, and only it, is missing.
   */
  lemma ParseInvertsRender(lines: seq<Line>)
    requires ValidDocument(lines)
    ensures Scan(Render(lines), START) == Rows(Values(Readable(lines)))
    ensures Scan(Render(lines), START) == Rows(Values(lines)) <==> !EndsInLoneEmpty(lines)
  {
    ScanLines(lines, START);
    assert [] + Values(Readable(lines)) == Values(Readable(lines));
    ValuesLength(lines);
    ValuesLength(Readable(lines));
  }

  /** Fully quoted, fully terminated documents always come back, whatever their fields hold. */
  lemma ParseInvertsQuoted(lines: seq<Line>)
    requires forall i | 0 <= i < |lines| :: lines[i].cells != [] && lines[i].end != Eof
                && forall j | 0 <= j < |lines[i].cells| :: lines[i].cells[j].Quoted?
    ensures Scan(Render(lines), START) == Rows(Values(lines))
  {
    ParseInvertsRender(lines);
  }

  /** The dropped row, concretely: one quoted empty field and no line break. */
  lemma LoneEmptyFieldIsDropped()
    ensures var lines := [Line([Quoted("")], Eof)];
            Render(lines) == [QUOTE, QUOTE] && Values(lines) == [[""]] && Scan(Render(lines), START) == Rows([])
  {
    var lines := [Line([Quoted("")], Eof)];
    ParseInvertsRender(lines);
    RenderLast(lines);
    assert Texts(lines[0].cells) == [""];
  }

  // ---------------------------------------------------------------- refusals

  lemma {:induction false} ScanUnclosed(text: string, st: State)
    requires st.quoted
    ensures Scan(Escaped(text), st) == InvalidEncoding
    decreases |text|
  {
    if text != "" {
      var s := Escaped(text);
      assert if text[0] == QUOTE then s[0] == QUOTE && s[1] == QUOTE && s[2..] == Escaped(text[1..])
             else s[0] == text[0] && s[1..] == Escaped(text[1..]);
      ScanUnclosed(text[1..], st.(field := st.field + [text[0]]));
    }
  }

  /** Fields already read on the line, each with its separator. */
  function RenderLead(cells: seq<Cell>): string
  {
    if cells == [] then "" else RenderCell(cells[0]) + "," + RenderLead(cells[1..])
  }

  lemma ScanLeadCell(cells: seq<Cell>, rest: string, st: State)
    requires cells != [] && ValidCell(cells[0]) && AtCell(st)
    ensures Scan(RenderLead(cells) + rest, st) == Scan(RenderLead(cells[1..]) + rest, st.(row := st.row + [cells[0].text]))
  {
    var tail := RenderLead(cells[1..]) + rest;
    SeparatedText(RenderCell(cells[0]), RenderLead(cells[1..]), rest);
    ScanCell(cells[0], "," + tail, st);
    ScanComma(tail, st.(field := cells[0].text, closed := cells[0].Quoted?));
  }

  lemma LeadRow(cells: seq<Cell>, row: seq<string>)
    requires cells != []
    ensures row + [cells[0].text] + Texts(cells[1..]) == row + Texts(cells)
  {
  }

  lemma {:induction false} ScanLead(cells: seq<Cell>, rest: string, st: State)
    requires (forall j | 0 <= j < |cells| :: ValidCell(cells[j])) && AtCell(st)
    ensures Scan(RenderLead(cells) + rest, st) == Scan(rest, st.(row := st.row + Texts(cells)))
    decreases |cells|
  {
    if cells == [] {
      assert RenderLead(cells) + rest == rest && st.row + [] == st.row;
    } else {
      ScanLeadCell(cells, rest, st);
      ScanLead(cells[1..], rest, st.(row := st.row + [cells[0].text]));
      LeadRow(cells, st.row);
    }
  }

  /** What may come before a field: whole terminated lines, then fields of its own line. */
  predicate ValidLead(lines: seq<Line>, cells: seq<Cell>)
  {
    && ValidDocument(lines) && (lines != [] ==> lines[|lines| - 1].end != Eof)
    && forall j | 0 <= j < |cells| :: ValidCell(cells[j])
  }

  lemma ScanUpToField(lines: seq<Line>, cells: seq<Cell>, rest: string)
    requires ValidLead(lines, cells)
    ensures Scan(Render(lines) + (RenderLead(cells) + rest), START)
            == Scan(rest, START.(rows := [] + Values(lines), row := [] + Texts(cells)))
  {
    ScanPrefix(lines, RenderLead(cells) + rest, START);
    ScanLead(cells, rest, START.(rows := [] + Values(lines)));
  }

  lemma ScanOpensQuote(text: string, st: State)
    requires AtCell(st)
    ensures Scan([QUOTE] + Escaped(text), st) == InvalidEncoding
  {
    assert ([QUOTE] + Escaped(text))[1..] == Escaped(text);
    ScanUnclosed(text, st.(quoted := true));
  }

  /** A field whose quote never closes is refused, wherever it stands. */
  lemma UnclosedQuoteIsRefused(lines: seq<Line>, cells: seq<Cell>, text: string)
    requires ValidLead(lines, cells)
    ensures Scan(Render(lines) + (RenderLead(cells) + ([QUOTE] + Escaped(text))), START) == InvalidEncoding
  {
    ScanUpToField(lines, cells, [QUOTE] + Escaped(text));
    ScanOpensQuote(text, START.(rows := [] + Values(lines), row := [] + Texts(cells)));
  }

  /** A quoted field followed by anything but a separator, a row end or a quote is refused, wherever it stands. */
  lemma TextAfterQuoteIsRefused(lines: seq<Line>, cells: seq<Cell>, text: string, rest: string)
    requires ValidLead(lines, cells) && !Delimits(rest) && rest[0] != QUOTE
    ensures Scan(Render(lines) + (RenderLead(cells) + ([QUOTE] + Escaped(text) + [QUOTE] + rest)), START) == InvalidEncoding
  {
    ScanUpToField(lines, cells, [QUOTE] + Escaped(text) + [QUOTE] + rest);
    ScanClosedThenText(text, rest, START.(rows := [] + Values(lines), row := [] + Texts(cells)));
  }

  lemma ScanClosedThenText(text: string, rest: string, st: State)
    requires !Delimits(rest) && rest[0] != QUOTE && AtCell(st)
    ensures Scan([QUOTE] + Escaped(text) + [QUOTE] + rest, st) == InvalidEncoding
  {
    assert ([QUOTE] + Escaped(text) + [QUOTE] + rest)[1..] == Escaped(text) + [QUOTE] + rest;
    ScanQuoted(text, rest, st.(quoted := true));
  }

  /** Terminated lines are consumed whatever follows them. */
  lemma {:induction false} ScanPrefix(lines: seq<Line>, rest: string, st: State)
    requires ValidDocument(lines) && (lines != [] ==> lines[|lines| - 1].end != Eof) && AtCell(st) && st.row == []
    ensures Scan(Render(lines) + rest, st) == Scan(rest, st.(rows := st.rows + Values(lines)))
    decreases |lines|
  {
    if lines == [] {
      assert st.rows + [] == st.rows && Render(lines) + rest == rest;
    } else {
      ScanFirstLine(lines, rest, st);
      ValidTail(lines);
      ScanPrefix(lines[1..], rest, st.(rows := st.rows + [Texts(lines[0].cells)]));
      ValuesStep(lines, st.rows);
    }
  }

  lemma ValuesStep(lines: seq<Line>, rows: seq<seq<string>>)
    requires lines != []
    ensures rows + [Texts(lines[0].cells)] + Values(lines[1..]) == rows + Values(lines)
  {
  }

  lemma ScanFirstLine(lines: seq<Line>, rest: string, st: State)
    requires ValidDocument(lines) && lines != [] && lines[0].end != Eof && AtCell(st) && st.row == []
    ensures Scan(Render(lines) + rest, st) == Scan(Render(lines[1..]) + rest, st.(rows := st.rows + [Texts(lines[0].cells)]))
  {
    var head := RenderCells(lines[0].cells) + RenderEnd(lines[0].end);
    assert Render(lines) + rest == head + (Render(lines[1..]) + rest);
    ScanLine(lines[0], Render(lines[1..]) + rest, st);
  }

  // ---------------------------------------------------------------- repeated records

  datatype Record = Record(key: string, digest: string, content: string)

  datatype Batch = Accepted(records: seq<Record>) | DuplicateSourceKey

  /** The first record with each key. */
  ghost predicate FirstPerKey(records: seq<Record>, unique: map<string, Record>)
  {
    && (forall i | 0 <= i < |records| :: records[i].key in unique)
    && (forall k | k in unique :: exists i :: IsFirst(records, k, i) && unique[k] == records[i])
  }

  predicate IsFirst(records: seq<Record>, k: string, i: int)
  {
    0 <= i < |records| && records[i].key == k && forall j | 0 <= j < i :: records[j].key != k
  }

  predicate Consistent(records: seq<Record>)
  {
    forall i, j | 0 <= i < |records| && 0 <= j < |records| && records[i].key == records[j].key :: records[i].digest == records[j].digest
  }

  /** Strictly ascending keys, in byte order. */
  predicate InKeyOrder(records: seq<Record>)
  {
    forall i, j | 0 <= i < j < |records| :: AtMost(records[i].key, records[j].key) && records[i].key != records[j].key
  }

  /** The kept records are exactly the first ones of their keys. */
  ghost predicate Collapses(records: seq<Record>, kept: seq<Record>)
  {
    forall r :: r in kept <==> exists i :: FirstAt(records, r, i)
  }

  predicate FirstAt(records: seq<Record>, r: Record, i: int) { IsFirst(records, r.key, i) && records[i] == r }

  /** Repeats of a record collapse to its first occurrence, in key order; two contents under one key are refused, and nothing else is. */
  method FinishBatch(records: seq<Record>) returns (batch: Batch)
    ensures batch.Accepted? <==> Consistent(records)
    ensures batch.Accepted? ==> Collapses(records, batch.records) && InKeyOrder(batch.records)
  {
    var unique: map<string, Record> := map[];
    for n := 0 to |records|
      invariant FirstPerKey(records[..n], unique)
      invariant Consistent(records[..n])
    {
      var record := records[n];
      ghost var seen := records[..n];
      assert records[..n + 1] == seen + [record];
      if record.key in unique {
        ghost var i :| IsFirst(seen, record.key, i) && unique[record.key] == seen[i];
        if unique[record.key].digest != record.digest {
          assert records[i] == seen[i] && records[n] == record;
          return DuplicateSourceKey;
        }
        RepeatKeeps(seen, record, unique, i);
      } else {
        NewKeeps(seen, record, unique);
        unique := unique[record.key := record];
      }
    }
    assert records[..|records|] == records;
    var kept := IntoValues(unique);
    CollapsesInOrder(records, unique, kept);
    batch := Accepted(kept);
  }

  /** The values of the ordered map, by ascending key. */
  method IntoValues(unique: map<string, Record>) returns (kept: seq<Record>)
    requires forall k | k in unique :: unique[k].key == k
    ensures InKeyOrder(kept)
    ensures forall r :: r in kept <==> r.key in unique && unique[r.key] == r
  {
    kept := [];
    var rest := unique.Keys;
    while rest != {}
      invariant rest <= unique.Keys && InKeyOrder(kept)
      invariant forall r :: r in kept <==> r.key in unique && r.key !in rest && unique[r.key] == r
      invariant forall n, k | 0 <= n < |kept| && k in rest :: AtMost(kept[n].key, k) && kept[n].key != k
      decreases rest
    {
      var key := LeastKey(rest);
      kept := kept + [unique[key]];
      rest := rest - {key};
    }
  }

  method LeastKey(keys: set<string>) returns (least: string)
    requires keys != {}
    ensures least in keys && forall k | k in keys :: AtMost(least, k)
  {
    least :| least in keys;
    AtMostTotal(least, least);
    var rest := keys - {least};
    while rest != {}
      invariant least in keys && rest <= keys
      invariant forall k | k in keys - rest :: AtMost(least, k)
      decreases rest
    {
      var x :| x in rest;
      AtMostTotal(x, x);
      AtMostTotal(least, x);
      if !AtMost(least, x) {
        forall k | k in keys - rest ensures AtMost(x, k) {
          AtMostTransitive(x, least, k);
        }
        least := x;
      }
      assert forall k | k in keys - (rest - {x}) :: k == x || k in keys - rest;
      rest := rest - {x};
    }
  }

  lemma CollapsesInOrder(records: seq<Record>, unique: map<string, Record>, kept: seq<Record>)
    requires FirstPerKey(records, unique)
    requires forall r :: r in kept <==> r.key in unique && unique[r.key] == r
    ensures Collapses(records, kept)
  {
    forall r ensures r in kept <==> exists i :: FirstAt(records, r, i) {
      if r in kept {
        var i :| IsFirst(records, r.key, i) && unique[r.key] == records[i];
        assert FirstAt(records, r, i);
      }
      if exists i :: FirstAt(records, r, i) {
        var i :| FirstAt(records, r, i);
        var j :| IsFirst(records, r.key, j) && unique[r.key] == records[j];
        assert i == j;
      }
    }
  }

  lemma RepeatKeeps(seen: seq<Record>, next: Record, unique: map<string, Record>, i: int)
    requires FirstPerKey(seen, unique) && Consistent(seen) && next.key in unique
    requires IsFirst(seen, next.key, i) && seen[i].digest == next.digest
    ensures FirstPerKey(seen + [next], unique) && Consistent(seen + [next])
  {
    FirstsExtend(seen, next, unique);
    forall j | 0 <= j < |seen| && seen[j].key == next.key ensures seen[j].digest == next.digest {
      assert seen[j].digest == seen[i].digest;
    }
  }

  lemma NewKeeps(seen: seq<Record>, next: Record, unique: map<string, Record>)
    requires FirstPerKey(seen, unique) && Consistent(seen) && next.key !in unique
    ensures FirstPerKey(seen + [next], unique[next.key := next]) && Consistent(seen + [next])
  {
    FirstsExtend(seen, next, unique);
    assert forall j | 0 <= j < |seen| :: seen[j].key != next.key;
    assert IsFirst(seen + [next], next.key, |seen|);
  }

  /** Firsts stay firsts when a record is appended. */
  lemma FirstsExtend(records: seq<Record>, next: Record, unique: map<string, Record>)
    requires FirstPerKey(records, unique)
    ensures forall k | k in unique :: exists i :: IsFirst(records + [next], k, i) && unique[k] == (records + [next])[i]
  {
    forall k | k in unique ensures exists i :: IsFirst(records + [next], k, i) && unique[k] == (records + [next])[i] {
      var i :| IsFirst(records, k, i) && unique[k] == records[i];
      assert IsFirst(records + [next], k, i);
    }
  }
}
