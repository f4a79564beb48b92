/**
 The pool spreadsheet of Betano Diário: columns found by their headers, addressed by letters, written and
 read again.  The remote sheet is a grid of texts; only calls that write cells change it.
 */
module PoolSheet {
  import opened Basics
  import opened Decimals

  const BETANO_MARKED_STATUS := "marcado"

  // ----- Column letters -----

  function LetterOf(n: nat): (c: char)
    requires n < 26
    ensures 'A' <= c <= 'Z' && c as int - 'A' as int == n
  {
    ('A' as int + n) as char
  }

  /** Letters as digits 1 to 26; zero has none. */
  function Letters(value: nat): string {
    if value == 0 then "" else Letters((value - 1) / 26) + [LetterOf((value - 1) % 26)]
  }

  predicate IsLetters(s: string) {
    forall i | 0 <= i < |s| :: 'A' <= s[i] <= 'Z'
  }

  function LettersValue(s: string): nat
    requires IsLetters(s)
  {
    if s == "" then 0 else 26 * LettersValue(s[..|s| - 1]) + (s[|s| - 1] as int - 'A' as int) + 1
  }

  method ColumnLetter(index: nat) returns (out: string)
    ensures out == Letters(index + 1)
  {
    var value: nat := index + 1;
    out := "";
    while value > 0
      invariant Letters(value) + out == Letters(index + 1)
    {
      value := value - 1;
      assert Letters(value + 1) + out == Letters(value / 26) + ([LetterOf(value % 26)] + out);
      out := [LetterOf(value % 26)] + out;
      value := value / 26;
    }
  }

  lemma {:induction false} LettersNameTheValue(value: nat)
    ensures IsLetters(Letters(value)) && LettersValue(Letters(value)) == value && (value > 0 ==> Letters(value) != "")
  {
    if value > 0 {
      LettersNameTheValue((value - 1) / 26);
      assert Letters(value)[..|Letters(value)| - 1] == Letters((value - 1) / 26);
    }
  }

  lemma {:induction false} ValueNamesTheLetters(s: string)
    requires IsLetters(s)
    ensures Letters(LettersValue(s)) == s
  {
    if s != "" {
      var init, last := s[..|s| - 1], s[|s| - 1] as int - 'A' as int;
      ValueNamesTheLetters(init);
      assert (LettersValue(s) - 1) / 26 == LettersValue(init) && (LettersValue(s) - 1) % 26 == last;
      assert s == init + [s[|s| - 1]];
    }
  }

  /** Numbers from one (a column index and one) and non-empty letter texts are in bijection. */
  lemma ColumnLettersAreABijection(s: string, value: nat)
    requires IsLetters(s) && s != "" && value >= 1
    ensures LettersValue(s) >= 1 && Letters(LettersValue(s)) == s
    ensures Letters(value) == s <==> value == LettersValue(s)
    ensures Letters(value) != "" && IsLetters(Letters(value))
  {
    ValueNamesTheLetters(s);
    LettersNameTheValue(value);
  }

  // ----- Cells -----

  type Grid = seq<seq<string>>

  function CellIn(row: seq<string>, col: nat): string {
    if col < |row| then row[col] else ""
  }

  function Cell(grid: Grid, row: nat, col: nat): string {
    if row < |grid| then CellIn(grid[row], col) else ""
  }

  function PadRow(row: seq<string>, n: nat): (r: seq<string>)
    ensures |r| >= n
    decreases n - |row|
  {
    if |row| >= n then row else PadRow(row + [""], n)
  }

  function PadGrid(grid: Grid, n: nat): (r: Grid)
    ensures |r| >= n
    decreases n - |grid|
  {
    if |grid| >= n then grid else PadGrid(grid + [[]], n)
  }

  /** Writing one cell; the grid grows as far as needed. */
  function SetCell(grid: Grid, row: nat, col: nat, text: string): Grid {
    var g := PadGrid(grid, row + 1);
    g[row := PadRow(g[row], col + 1)[col := text]]
  }

  /** How many letters a text starts with. */
  function LetterRun(s: string): (n: nat)
    ensures n <= |s| && IsLetters(s[..n]) && (n < |s| ==> !('A' <= s[n] <= 'Z'))
  {
    if s == "" || !('A' <= s[0] <= 'Z') then 0 else 1 + LetterRun(s[1..])
  }

  /**
   The cell named by an address such as "AB12": column and row count from zero in a grid, rows from one in an address.
   */
  function Resolve(address: string): Option<(nat, nat)> {
    var n := LetterRun(address);
    if n == 0 || n == |address| || !AllDigits(address[n..]) || Value(address[n..]) == 0 then None
    else Some((Value(address[n..]) - 1, LettersValue(address[..n]) - 1))
  }

  function WriteAt(grid: Grid, address: string, text: string): Grid {
    match Resolve(address)
    case None => grid
    case Some((row, col)) => SetCell(grid, row, col, text)
  }

  lemma {:induction false} RunBeforeDigits(letters: string, digits: string)
    requires IsLetters(letters) && AllDigits(digits) && digits != ""
    ensures LetterRun(letters + digits) == |letters|
  {
    if letters == "" {
      assert letters + digits == digits;
    } else {
      assert (letters + digits)[1..] == letters[1..] + digits;
      RunBeforeDigits(letters[1..], digits);
    }
  }

  /** The address composed for a column index and a row number resolves to that cell. */
  lemma AddressResolves(index: nat, rowIndex: nat)
    requires rowIndex >= 1
    ensures Resolve(Letters(index + 1) + Digits(rowIndex)) == Some((rowIndex - 1, index))
  {
    var letters, digits := Letters(index + 1), Digits(rowIndex);
    LettersNameTheValue(index + 1);
    ValueOfDigits(rowIndex);
    RunBeforeDigits(letters, digits);
    assert (letters + digits)[..|letters|] == letters && (letters + digits)[|letters|..] == digits;
  }

  lemma {:induction false} PadRowCells(row: seq<string>, n: nat, col: nat)
    ensures CellIn(PadRow(row, n), col) == CellIn(row, col)
    decreases n - |row|
  {
    if |row| < n {
      PadRowCells(row + [""], n, col);
    }
  }

  /** A write inside the grid changes one cell, and no row appears. */
  lemma SetCellSets(grid: Grid, row: nat, col: nat, text: string, r: nat, c: nat)
    requires row < |grid|
    ensures |SetCell(grid, row, col, text)| == |grid|
    ensures r != row && r < |grid| ==> SetCell(grid, row, col, text)[r] == grid[r]
    ensures Cell(SetCell(grid, row, col, text), r, c) == if r == row && c == col then text else Cell(grid, r, c)
  {
    PadRowCells(grid[row], col + 1, c);
  }

  // ----- The parser -----

  datatype SheetRow = SheetRow(rowIndex: nat, link: string, status: string, email: string)

  /** The required headers, in the order in which they are checked. */
  datatype Header = LINK | STATUS | EMAIL

  function Title(h: Header): string {
    match h
    case LINK => "LINK"
    case STATUS => "STATUS"
    case EMAIL => "E-MAIL"
  }

  lemma TitlesDiffer(a: Header, b: Header)
    ensures Title(a) == Title(b) <==> a == b
  {
    assert |Title(LINK)| == 4 && |Title(STATUS)| == 6 && |Title(EMAIL)| == 6;
    assert Title(STATUS)[0] != Title(EMAIL)[0];
  }

  datatype Columns = Columns(status: string, email: string)

  datatype Parsed = Pool(columns: Columns, rows: seq<SheetRow>) | SchemaError(header: Header)

  /** Upper-casing is a parameter of the model. */
  type Upper = string -> string

  function NormalizeHeader(value: string, upper: Upper): string {
    upper(Trim(value))
  }

  function Normalizer(upper: Upper): string -> string {
    value => NormalizeHeader(value, upper)
  }

  /** The columns, in order, whose header reads `name`. */
  function Positions(headers: seq<string>, read: string -> string, name: string, n: nat): seq<nat>
    requires n <= |headers|
  {
    if n == 0 then []
    else Positions(headers, read, name, n - 1) + if read(headers[n - 1]) == name then [n - 1] else []
  }

  function ColumnOf(headers: seq<string>, upper: Upper, h: Header): Option<nat> {
    var p := Positions(headers, Normalizer(upper), Title(h), |headers|);
    if |p| == 1 then Some(p[0]) else None
  }

  /** What the header scan records: no entry for a name that does not occur. */
  ghost predicate Scanned(headers: seq<string>, upper: Upper, n: nat, positions: map<string, seq<nat>>) {
    n <= |headers|
    && forall name {:trigger name in positions} ::
        (if name in positions then positions[name] else []) == Positions(headers, Normalizer(upper), name, n)
  }

  /** `positions` with one more index under a name. */
  function Push(positions: map<string, seq<nat>>, name: string, index: nat): map<string, seq<nat>> {
    var current := if name in positions then positions[name] else [];
    positions[name := current + [index]]
  }

  lemma ScanStep(headers: seq<string>, upper: Upper, i: nat, positions: map<string, seq<nat>>)
    requires i < |headers| && Scanned(headers, upper, i, positions)
    ensures Scanned(headers, upper, i + 1, Push(positions, NormalizeHeader(headers[i], upper), i))
  {
    var name := NormalizeHeader(headers[i], upper);
    forall other
      ensures Positions(headers, Normalizer(upper), other, i + 1) == Positions(headers, Normalizer(upper), other, i)
          + if other == name then [i] else []
    {
    }
  }

  method ScanHeaders(headers: seq<string>, upper: Upper) returns (positions: map<string, seq<nat>>)
    ensures Scanned(headers, upper, |headers|, positions)
  {
    positions := map[];
    for index := 0 to |headers|
      invariant Scanned(headers, upper, index, positions)
    {
      ScanStep(headers, upper, index, positions);
      var normalized := NormalizeHeader(headers[index], upper);
      positions := Push(positions, normalized, index);
    }
  }

  function HeadersOf(values: Grid): seq<string> {
    if values == [] then [] else values[0]
  }

  function RowOf(row: seq<string>, rowIndex: nat, link: nat, status: nat, email: nat): SheetRow {
    SheetRow(rowIndex, Trim(CellIn(row, link)), Trim(CellIn(row, status)), Trim(CellIn(row, email)))
  }

  function Reader(link: nat, status: nat, email: nat): (seq<string>, nat) -> SheetRow {
    (row: seq<string>, rowIndex: nat) => RowOf(row, rowIndex, link, status, email)
  }

  /** The rows below the first, each read with its number. */
  function Below(values: Grid, read: (seq<string>, nat) -> SheetRow): seq<SheetRow> {
    if values == [] then [] else seq(|values| - 1, i requires 0 <= i < |values| - 1 => read(values[i + 1], i + 2))
  }

  function RowsOf(values: Grid, link: nat, status: nat, email: nat): seq<SheetRow> {
    Below(values, Reader(link, status, email))
  }

  /** Each required header must occur exactly once. */
  function Parse(values: Grid, upper: Upper): Parsed {
    var headers := HeadersOf(values);
    var link, status, email := ColumnOf(headers, upper, LINK), ColumnOf(headers, upper, STATUS),
        ColumnOf(headers, upper, EMAIL);
    if link.None? then SchemaError(LINK)
    else if status.None? then SchemaError(STATUS)
    else if email.None? then SchemaError(EMAIL)
    else Pool(Columns(Letters(status.value + 1), Letters(email.value + 1)),
              RowsOf(values, link.value, status.value, email.value))
  }

  /** The column recorded for a header, if it occurs exactly once. */
  method FindColumn(headers: seq<string>, upper: Upper, positions: map<string, seq<nat>>, h: Header)
    returns (column: Option<nat>)
    requires Scanned(headers, upper, |headers|, positions)
    ensures column == ColumnOf(headers, upper, h)
  {
    var matches := if Title(h) in positions then positions[Title(h)] else [];
    column := if |matches| != 1 then None else Some(matches[0]);
  }

  method ParseBetanoDiarioPoolSheet(values: Grid, upper: Upper) returns (r: Parsed)
    ensures r == Parse(values, upper)
  {
    var headers := HeadersOf(values);
    var positions := ScanHeaders(headers, upper);
    var link := FindColumn(headers, upper, positions, LINK);
    if link.None? {
      return SchemaError(LINK);
    }
    var status := FindColumn(headers, upper, positions, STATUS);
    if status.None? {
      return SchemaError(STATUS);
    }
    var email := FindColumn(headers, upper, positions, EMAIL);
    if email.None? {
      return SchemaError(EMAIL);
    }
    var statusLetter := ColumnLetter(status.value);
    var emailLetter := ColumnLetter(email.value);
    r := Pool(Columns(statusLetter, emailLetter), RowsOf(values, link.value, status.value, email.value));
  }

  // ----- The service -----

  datatype Entry = Entry(rowIndex: nat, email: string)

  /** The batch of one entry: its status cell, then its e-mail cell. */
  function MarkOne(grid: Grid, columns: Columns, e: Entry): Grid {
    WriteAt(WriteAt(grid, columns.status + Digits(e.rowIndex), BETANO_MARKED_STATUS),
            columns.email + Digits(e.rowIndex), e.email)
  }

  function MarkAll(grid: Grid, columns: Columns, entries: seq<Entry>, n: nat): Grid
    requires n <= |entries|
  {
    if n == 0 then grid else MarkOne(MarkAll(grid, columns, entries, n - 1), columns, entries[n - 1])
  }

  datatype ReadResult = Rows(rows: seq<SheetRow>) | ReadFailed(header: Header)

  datatype MarkResult = Marked | ColumnsNotLoaded

  class SheetService {
    var grid: Grid
    var controlColumns: Option<Columns>
    const upper: Upper

    constructor (grid: Grid, upper: Upper)
      ensures this.grid == grid && this.upper == upper && controlColumns == None
    {
      this.grid, this.upper, controlColumns := grid, upper, None;
    }

    method ReadPool() returns (r: ReadResult)
      modifies this`controlColumns
      ensures match Parse(grid, upper)
              case Pool(columns, rows) => r == Rows(rows) && controlColumns == Some(columns)
              case SchemaError(header) => r == ReadFailed(header) && controlColumns == old(controlColumns)
    {
      var parsed := ParseBetanoDiarioPoolSheet(grid, upper);
      match parsed
      case SchemaError(header) =>
        r := ReadFailed(header);
      case Pool(columns, rows) =>
        controlColumns := Some(columns);
        r := Rows(rows);
    }

    method MarkRowUsed(rowIndex: nat, userEmail: string) returns (r: MarkResult)
      modifies this`grid
      ensures if controlColumns.None? then r == ColumnsNotLoaded && grid == old(grid)
              else r == Marked && grid == MarkOne(old(grid), controlColumns.value, Entry(rowIndex, userEmail))
    {
      if controlColumns.None? {
        return ColumnsNotLoaded;
      }
      grid := WriteAt(grid, controlColumns.value.status + Digits(rowIndex), BETANO_MARKED_STATUS);
      grid := WriteAt(grid, controlColumns.value.email + Digits(rowIndex), userEmail);
      r := Marked;
    }

    method MarkRowsUsed(entries: seq<Entry>) returns (r: MarkResult)
      modifies this`grid
      ensures entries == [] ==> r == Marked && grid == old(grid)
      ensures entries != [] ==>
                if controlColumns.None? then r == ColumnsNotLoaded && grid == old(grid)
                else r == Marked && grid == MarkAll(old(grid), controlColumns.value, entries, |entries|)
    {
      if entries == [] {
        return Marked;
      }
      if controlColumns.None? {
        return ColumnsNotLoaded;
      }
      for i := 0 to |entries|
        invariant grid == MarkAll(old(grid), controlColumns.value, entries, i)
      {
        grid := WriteAt(grid, controlColumns.value.status + Digits(entries[i].rowIndex), BETANO_MARKED_STATUS);
        grid := WriteAt(grid, controlColumns.value.email + Digits(entries[i].rowIndex), entries[i].email);
      }
      r := Marked;
    }
  }

  // ----- Marking and reading again -----

  /** The e-mail of the last of the first `n` entries that name a row. */
  function EmailFor(entries: seq<Entry>, n: nat, rowIndex: nat): Option<string>
    requires n <= |entries|
  {
    if n == 0 then None
    else if entries[n - 1].rowIndex == rowIndex then Some(entries[n - 1].email)
    else EmailFor(entries, n - 1, rowIndex)
  }

  /** Entries for rows that were read. */
  ghost predicate NameRows(values: Grid, entries: seq<Entry>) {
    forall i | 0 <= i < |entries| :: 2 <= entries[i].rowIndex <= |values|
  }

  /** One cell after the marks: the named rows carry the mark in two columns, all other cells are as before. */
  function MarkedCell(values: Grid, status: nat, email: nat, entries: seq<Entry>, n: nat, r: nat, c: nat): string
    requires n <= |entries|
  {
    var named := EmailFor(entries, n, r + 1);
    if named.None? then Cell(values, r, c)
    else if c == email then named.value
    else if c == status then BETANO_MARKED_STATUS
    else Cell(values, r, c)
  }

  lemma MarkOneCell(grid: Grid, status: nat, email: nat, e: Entry, r: nat, c: nat)
    requires 2 <= e.rowIndex <= |grid|
    ensures var after := MarkOne(grid, Columns(Letters(status + 1), Letters(email + 1)), e);
            && |after| == |grid| && after[0] == grid[0]
            && Cell(after, r, c) == if r + 1 != e.rowIndex then Cell(grid, r, c)
                                    else if c == email then e.email
                                    else if c == status then BETANO_MARKED_STATUS
                                    else Cell(grid, r, c)
  {
    AddressResolves(status, e.rowIndex);
    AddressResolves(email, e.rowIndex);
    SetCellSets(grid, e.rowIndex - 1, status, BETANO_MARKED_STATUS, r, c);
    SetCellSets(grid, e.rowIndex - 1, status, BETANO_MARKED_STATUS, 0, c);
    var mid := SetCell(grid, e.rowIndex - 1, status, BETANO_MARKED_STATUS);
    SetCellSets(mid, e.rowIndex - 1, email, e.email, r, c);
    SetCellSets(mid, e.rowIndex - 1, email, e.email, 0, c);
  }

  lemma MarkedCellStep(values: Grid, status: nat, email: nat, entries: seq<Entry>, n: nat, r: nat, c: nat)
    requires 0 < n <= |entries|
    ensures MarkedCell(values, status, email, entries, n, r, c) ==
            if r + 1 != entries[n - 1].rowIndex then MarkedCell(values, status, email, entries, n - 1, r, c)
            else if c == email then entries[n - 1].email
            else if c == status then BETANO_MARKED_STATUS
            else MarkedCell(values, status, email, entries, n - 1, r, c)
  {
  }

  /** A grid that carries the marks of the first `n` entries. */
  ghost predicate Carries(grid: Grid, values: Grid, status: nat, email: nat, entries: seq<Entry>, n: nat) {
    && n <= |entries| && |grid| == |values| && values != [] && grid[0] == values[0]
    && forall r: nat, c: nat :: Cell(grid, r, c) == MarkedCell(values, status, email, entries, n, r, c)
  }

  lemma CarriesNext(grid: Grid, values: Grid, status: nat, email: nat, entries: seq<Entry>, n: nat)
    requires n < |entries| && Carries(grid, values, status, email, entries, n) && 2 <= entries[n].rowIndex <= |values|
    ensures Carries(MarkOne(grid, Columns(Letters(status + 1), Letters(email + 1)), entries[n]), values, status,
                    email, entries, n + 1)
  {
    var after := MarkOne(grid, Columns(Letters(status + 1), Letters(email + 1)), entries[n]);
    MarkOneCell(grid, status, email, entries[n], 0, 0);
    forall r: nat, c: nat
      ensures Cell(after, r, c) == MarkedCell(values, status, email, entries, n + 1, r, c)
    {
      MarkOneCell(grid, status, email, entries[n], r, c);
      MarkedCellStep(values, status, email, entries, n + 1, r, c);
    }
  }

  lemma {:induction false} MarksAreCarried(values: Grid, status: nat, email: nat, entries: seq<Entry>, n: nat)
    requires n <= |entries| && NameRows(values, entries) && values != []
    ensures Carries(MarkAll(values, Columns(Letters(status + 1), Letters(email + 1)), entries, n), values, status,
                    email, entries, n)
  {
    if n > 0 {
      MarksAreCarried(values, status, email, entries, n - 1);
      CarriesNext(MarkAll(values, Columns(Letters(status + 1), Letters(email + 1)), entries, n - 1), values, status,
                  email, entries, n - 1);
    }
  }

  lemma {:induction false} PositionsMean(headers: seq<string>, read: string -> string, name: string, n: nat)
    requires n <= |headers|
    ensures forall p | p in Positions(headers, read, name, n) :: p < n && read(headers[p]) == name
  {
    if n > 0 {
      PositionsMean(headers, read, name, n - 1);
    }
  }

  lemma ColumnsDiffer(headers: seq<string>, upper: Upper, a: Header, b: Header)
    requires a != b && ColumnOf(headers, upper, a).Some? && ColumnOf(headers, upper, b).Some?
    ensures ColumnOf(headers, upper, a) != ColumnOf(headers, upper, b)
  {
    var read := Normalizer(upper);
    PositionsMean(headers, read, Title(a), |headers|);
    PositionsMean(headers, read, Title(b), |headers|);
    TitlesDiffer(a, b);
    assert Positions(headers, read, Title(a), |headers|)[0] in Positions(headers, read, Title(a), |headers|);
    assert Positions(headers, read, Title(b), |headers|)[0] in Positions(headers, read, Title(b), |headers|);
  }

  /** A row as it reads after the marks. */
  function MarkedRow(row: SheetRow, entries: seq<Entry>): SheetRow {
    match EmailFor(entries, |entries|, row.rowIndex)
    case None => row
    case Some(email) => row.(status := BETANO_MARKED_STATUS, email := Trim(email))
  }

  lemma RowReadsBack(after: Grid, values: Grid, link: nat, status: nat, email: nat, entries: seq<Entry>, i: nat)
    requires Carries(after, values, status, email, entries, |entries|)
    requires i + 1 < |values| && link != status && link != email && status != email
    ensures RowOf(after[i + 1], i + 2, link, status, email) ==
        MarkedRow(RowOf(values[i + 1], i + 2, link, status, email), entries)
  {
    MarkIsTrimmed();
    CellsReadBack(after, values, link, status, email, entries, i);
  }

  lemma CellsReadBack(after: Grid, values: Grid, link: nat, status: nat, email: nat, entries: seq<Entry>, i: nat)
    requires Carries(after, values, status, email, entries, |entries|)
    requires i + 1 < |values| && link != status && link != email && status != email
    ensures var named := EmailFor(entries, |entries|, i + 2);
            && CellIn(after[i + 1], link) == CellIn(values[i + 1], link)
            && CellIn(after[i + 1], status) ==
               (if named.Some? then BETANO_MARKED_STATUS else CellIn(values[i + 1], status))
            && CellIn(after[i + 1], email) == (if named.Some? then named.value else CellIn(values[i + 1], email))
  {
    assert CellIn(after[i + 1], link) == Cell(after, i + 1, link);
    assert CellIn(after[i + 1], status) == Cell(after, i + 1, status);
    assert CellIn(after[i + 1], email) == Cell(after, i + 1, email);
  }

  lemma RowsOfAt(values: Grid, link: nat, status: nat, email: nat, i: nat)
    requires i + 1 < |values|
    ensures |RowsOf(values, link, status, email)| == |values| - 1
    ensures RowsOf(values, link, status, email)[i] == RowOf(values[i + 1], i + 2, link, status, email)
  {
    BelowAt(values, Reader(link, status, email), i);
  }

  lemma BelowAt(values: Grid, read: (seq<string>, nat) -> SheetRow, i: nat)
    requires i + 1 < |values|
    ensures |Below(values, read)| == |values| - 1 && Below(values, read)[i] == read(values[i + 1], i + 2)
  {
  }

  lemma RowsReadBack(after: Grid, values: Grid, link: nat, status: nat, email: nat, entries: seq<Entry>)
    requires Carries(after, values, status, email, entries, |entries|) && link != status && link != email
        && status != email
    ensures var rows, again := RowsOf(values, link, status, email), RowsOf(after, link, status, email);
            |again| == |rows| && forall i | 0 <= i < |rows| :: again[i] == MarkedRow(rows[i], entries)
  {
    var rows, again := RowsOf(values, link, status, email), RowsOf(after, link, status, email);
    forall i | 0 <= i < |rows|
      ensures again[i] == MarkedRow(rows[i], entries)
    {
      RowReadsBack(after, values, link, status, email, entries, i);
      RowsOfAt(values, link, status, email, i);
      RowsOfAt(after, link, status, email, i);
    }
  }

  /**
   Marking rows and reading the sheet again: it still parses, with the same columns; exactly the named rows
   have changed, and in them only status and e-mail.
   */
  lemma MarksAreReadBack(values: Grid, upper: Upper, entries: seq<Entry>)
    requires Parse(values, upper).Pool? && NameRows(values, entries)
    ensures var pool := Parse(values, upper);
            var again := Parse(MarkAll(values, pool.columns, entries, |entries|), upper);
            && again.Pool? && again.columns == pool.columns && |again.rows| == |pool.rows|
            && (forall i | 0 <= i < |pool.rows| :: again.rows[i] == MarkedRow(pool.rows[i], entries))
            && forall i | 0 <= i < |pool.rows| && EmailFor(entries, |entries|, pool.rows[i].rowIndex).Some? ::
                 again.rows[i].status == "marcado"
  {
    var headers := HeadersOf(values);
    var link, status, email := ColumnOf(headers, upper, LINK).value, ColumnOf(headers, upper, STATUS).value,
        ColumnOf(headers, upper, EMAIL).value;
    ColumnsDiffer(headers, upper, LINK, STATUS);
    ColumnsDiffer(headers, upper, LINK, EMAIL);
    ColumnsDiffer(headers, upper, STATUS, EMAIL);
    MarksAreCarried(values, status, email, entries, |entries|);
    var after := MarkAll(values, Columns(Letters(status + 1), Letters(email + 1)), entries, |entries|);
    RowsReadBack(after, values, link, status, email, entries);
    assert HeadersOf(after) == headers;
  }

  lemma MarkIsTrimmed()
    ensures Trim(BETANO_MARKED_STATUS) == BETANO_MARKED_STATUS
  {
    assert !IsBlank(BETANO_MARKED_STATUS[0]) && !IsBlank(BETANO_MARKED_STATUS[|BETANO_MARKED_STATUS| - 1]);
  }

  // ----- What is read, in plain terms -----

  /** Among the first `n` headers only column `c` reads `title`. */
  predicate OnlyAt(headers: seq<string>, read: string -> string, title: string, n: nat, c: nat)
    requires n <= |headers|
  {
    c < n && read(headers[c]) == title && forall d | 0 <= d < n && d != c :: read(headers[d]) != title
  }

  lemma {:induction false} NoPositions(headers: seq<string>, read: string -> string, title: string, n: nat)
    requires n <= |headers|
    ensures Positions(headers, read, title, n) == [] <==> forall d | 0 <= d < n :: read(headers[d]) != title
  {
    if n > 0 {
      NoPositions(headers, read, title, n - 1);
    }
  }

  lemma {:induction false} PositionsAre(headers: seq<string>, read: string -> string, title: string, n: nat, c: nat)
    requires n <= |headers|
    ensures Positions(headers, read, title, n) == [c] <==> OnlyAt(headers, read, title, n, c)
  {
    if n > 0 {
      PositionsAre(headers, read, title, n - 1, c);
      NoPositions(headers, read, title, n - 1);
      var before := Positions(headers, read, title, n - 1);
      assert (before + [n - 1])[|before|] == n - 1;
    }
  }

  /** Only column `c` reads `title` once trimmed and in upper case. */
  predicate IsOnly(headers: seq<string>, upper: Upper, title: string, c: nat) {
    && c < |headers| && upper(Trim(headers[c])) == title
    && forall d | 0 <= d < |headers| && d != c :: upper(Trim(headers[d])) != title
  }

  /** A header's column is the one column that reads its title. */
  lemma ColumnOfMeans(headers: seq<string>, upper: Upper, h: Header, c: nat)
    ensures ColumnOf(headers, upper, h) == Some(c) <==>
            IsOnly(headers, upper, match h case LINK => "LINK" case STATUS => "STATUS" case EMAIL => "E-MAIL", c)
  {
    var read := Normalizer(upper);
    PositionsAre(headers, read, Title(h), |headers|, c);
    assert OnlyAt(headers, read, Title(h), |headers|, c) <==> IsOnly(headers, upper, Title(h), c);
    var p := Positions(headers, read, Title(h), |headers|);
    if |p| == 1 {
      assert p == [p[0]];
    }
  }

  predicate OneColumn(values: Grid, upper: Upper, title: string) {
    values != [] && exists c | 0 <= c < |values[0]| :: IsOnly(values[0], upper, title, c)
  }

  /** What was read at the three columns, row by row from the second on. */
  ghost predicate ReadsRows(values: Grid, upper: Upper, pool: Parsed)
    requires pool.Pool?
  {
    exists link: nat, status: nat, email: nat ::
      && values != [] && IsOnly(values[0], upper, "LINK", link)
      && IsOnly(values[0], upper, "STATUS", status)
      && IsOnly(values[0], upper, "E-MAIL", email)
      && pool.columns == Columns(Letters(status + 1), Letters(email + 1))
      && |pool.rows| == |values| - 1
      && forall i | 0 <= i < |pool.rows| ::
           pool.rows[i] == SheetRow(i + 2, Trim(Cell(values, i + 1, link)), Trim(Cell(values, i + 1, status)),
                                    Trim(Cell(values, i + 1, email)))
  }

  lemma ColumnOfExists(values: Grid, upper: Upper, h: Header)
    ensures ColumnOf(HeadersOf(values), upper, h).Some? <==>
            OneColumn(values, upper, match h case LINK => "LINK" case STATUS => "STATUS" case EMAIL => "E-MAIL")
  {
    var headers, title := HeadersOf(values), match h case LINK => "LINK" case STATUS => "STATUS" case EMAIL => "E-MAIL";
    if ColumnOf(headers, upper, h).Some? {
      ColumnOfMeans(headers, upper, h, ColumnOf(headers, upper, h).value);
    }
    if OneColumn(values, upper, title) {
      var c :| 0 <= c < |values[0]| && IsOnly(values[0], upper, title, c);
      ColumnOfMeans(headers, upper, h, c);
    }
  }

  /**
   A sheet parses exactly if each of the three titles heads one column, the first that does not is reported, and every
   row shows the trimmed cells of those columns.
   */
  lemma ParseMeans(values: Grid, upper: Upper)
    ensures var link, status, email := OneColumn(values, upper, "LINK"), OneColumn(values, upper, "STATUS"),
        OneColumn(values, upper, "E-MAIL");
            && (Parse(values, upper) == SchemaError(LINK) <==> !link)
            && (Parse(values, upper) == SchemaError(STATUS) <==> link && !status)
            && (Parse(values, upper) == SchemaError(EMAIL) <==> link && status && !email)
            && (Parse(values, upper).Pool? <==> link && status && email)
            && (Parse(values, upper).Pool? ==> ReadsRows(values, upper, Parse(values, upper)))
  {
    ColumnOfExists(values, upper, LINK);
    ColumnOfExists(values, upper, STATUS);
    ColumnOfExists(values, upper, EMAIL);
    var pool := Parse(values, upper);
    if pool.Pool? {
      var headers := HeadersOf(values);
      var link, status, email := ColumnOf(headers, upper, LINK).value, ColumnOf(headers, upper, STATUS).value,
          ColumnOf(headers, upper, EMAIL).value;
      ColumnOfMeans(headers, upper, LINK, link);
      ColumnOfMeans(headers, upper, STATUS, status);
      ColumnOfMeans(headers, upper, EMAIL, email);
      forall i | 0 <= i < |pool.rows|
        ensures pool.rows[i] ==
            SheetRow(i + 2, Trim(Cell(values, i + 1, link)), Trim(Cell(values, i + 1, status)),
                     Trim(Cell(values, i + 1, email)))
      {
        RowsOfAt(values, link, status, email, i);
      }
    }
  }
}
