/** Markdown tables: reading one from a tool result, showing it to the model, checking the answer against it. */
module Tables {
  import opened Options
  import opened Text
  import opened TextLines
  import opened Numerals

  type Row = seq<string>

  // ------------------------------------------------------------ reading

  function TrimAll(parts: seq<string>): (r: seq<string>)
    ensures |r| == |parts| && forall i :: 0 <= i < |r| ==> r[i] == Trim(parts[i])
  {
    seq(|parts|, i requires 0 <= i < |parts| => Trim(parts[i]))
  }

  /** An empty cell before the first bar or after the last one is not a cell. */
  function DropEnds(cells: Row): Row {
    var front := if cells != [] && cells[0] == "" then cells[1..] else cells;
    if front != [] && front[|front| - 1] == "" then front[..|front| - 1] else front
  }

  function Cells(line: string): Row {
    DropEnds(TrimAll(Split(line, {'|'})))
  }

  predicate Dashes(s: string) {
    |s| >= 3 && forall i :: 0 <= i < |s| ==> s[i] == '-'
  }

  /** At least three dashes, with an optional colon on either side. */
  predicate Rule(cell: string) {
    var left := if cell != "" && cell[0] == ':' then cell[1..] else cell;
    Dashes(if left != "" && left[|left| - 1] == ':' then left[..|left| - 1] else left)
  }

  function Colon(there: bool): string {
    if there then ":" else ""
  }

  function DashRun(n: nat): (r: string)
    ensures |r| == n && forall i :: 0 <= i < n ==> r[i] == '-'
  {
    seq(n, _ => '-')
  }

  /** A run of dashes between optional colons is a rule exactly from three dashes on. */
  lemma {:induction false} RuleOf(left: bool, n: nat, right: bool)
    ensures Rule(Colon(left) + DashRun(n) + Colon(right)) <==> n >= 3
  {
    var cell := Colon(left) + DashRun(n) + Colon(right);
    if n == 0 {
      assert |cell| <= 2;
    } else {
      var rest := DashRun(n) + Colon(right);
      assert (if cell[0] == ':' then cell[1..] else cell) == rest;
      assert right ==> rest[..|rest| - 1] == DashRun(n) && rest[|rest| - 1] == ':';
      assert !right ==> rest == DashRun(n) && rest[|rest| - 1] == '-';
    }
  }

  lemma {:induction false} DashesAre(s: string)
    requires Dashes(s)
    ensures s == DashRun(|s|)
  {
  }

  /** Nothing else is a rule. */
  lemma {:induction false} RuleIsDashes(cell: string) returns (left: bool, n: nat, right: bool)
    requires Rule(cell)
    ensures cell == Colon(left) + DashRun(n) + Colon(right)
  {
    hide Dashes, DashRun;
    left := cell != "" && cell[0] == ':';
    var rest := if left then cell[1..] else cell;
    right := rest != "" && rest[|rest| - 1] == ':';
    var dashes := if right then rest[..|rest| - 1] else rest;
    n := |dashes|;
    DashesAre(dashes);
    assert cell == Colon(left) + rest && rest == dashes + Colon(right);
    assert Colon(left) + (dashes + Colon(right)) == Colon(left) + dashes + Colon(right);
  }

  predicate AllRules(cells: Row) {
    forall i :: 0 <= i < |cells| ==> Rule(cells[i])
  }

  predicate HasBar(s: string) {
    exists i :: 0 <= i < |s| && s[i] == '|'
  }

  /** The rows of the first table in the lines, after those already read. */
  function Gather(lines: seq<string>, rows: seq<Row>): seq<Row> {
    if lines == [] then rows
    else
      var trimmed := Trim(lines[0]);
      if HasBar(trimmed) then
        var cells := Cells(trimmed);
        Gather(lines[1..], if cells == [] || AllRules(cells) then rows else rows + [cells])
      else if rows != [] then rows
      else Gather(lines[1..], rows)
  }

  predicate Rectangular(rows: seq<Row>) {
    forall i :: 0 <= i < |rows| ==> |rows[i]| == |rows[0]|
  }

  predicate DistinctKeys(rows: seq<Row>) {
    forall i, j :: 1 <= i < j < |rows| && rows[i] != [] && rows[j] != [] ==> rows[i][0] != rows[j][0]
  }

  function ParseTable(text: string): Option<seq<Row>> {
    var rows := Gather(Lines(text), []);
    if |rows| < 2 || !Rectangular(rows) || !DistinctKeys(rows) then None else Some(rows)
  }

  /** The line-by-line scan, then the checks. */
  method ParseMarkdownTable(text: string) returns (r: Option<seq<Row>>)
    ensures r == ParseTable(text)
  {
    hide Lines, Trim, Cells, HasBar, AllRules;
    var lines := Lines(text);
    var rows: seq<Row> := [];
    var i := 0;
    while i < |lines|
      invariant 0 <= i <= |lines| && Gather(lines[i..], rows) == Gather(lines, [])
    {
      var trimmed := Trim(lines[i]);
      assert lines[i..][1..] == lines[i + 1..];
      if HasBar(trimmed) {
        var cells := Cells(trimmed);
        if cells != [] && !AllRules(cells) { rows := rows + [cells]; }
      } else if rows != [] {
        break;
      }
      i := i + 1;
    }
    assert rows == Gather(lines, []);
    if |rows| < 2 || exists k | 0 <= k < |rows| :: |rows[k]| != |rows[0]| { return None; }
    var keys: set<string> := {};
    i := 1;
    while i < |rows|
      invariant 1 <= i <= |rows| && DistinctKeys(rows[..i])
      invariant keys == set k | 1 <= k < i && rows[k] != [] :: rows[k][0]
    {
      if rows[i] != [] {
        if rows[i][0] in keys {
          var k :| 1 <= k < i && rows[k] != [] && rows[k][0] == rows[i][0];
          return None;
        }
        keys := keys + {rows[i][0]};
      }
      i := i + 1;
    }
    assert rows[..i] == rows;
    return Some(rows);
  }

  // ------------------------------------------------------------ showing

  function JoinBars(cells: Row): string {
    if cells == [] then "" else if |cells| == 1 then cells[0] else cells[0] + " | " + JoinBars(cells[1..])
  }

  function Shown(cells: Row): string {
    "| " + JoinBars(cells) + " |"
  }

  function Ruler(n: nat): (r: Row)
    ensures |r| == n && forall i :: 0 <= i < n ==> r[i] == "---"
  {
    seq(n, _ => "---")
  }

  function ShownAll(rows: seq<Row>): (r: seq<string>)
    ensures |r| == |rows| && forall i :: 0 <= i < |r| ==> r[i] == Shown(rows[i])
  {
    seq(|rows|, i requires 0 <= i < |rows| => Shown(rows[i]))
  }

  /** The header, a ruler as wide as the header, then the other rows. */
  function DescribeTable(rows: seq<Row>): string {
    if rows == [] then ""
    else JoinLines([Shown(rows[0]), Shown(Ruler(|rows[0]|))] + ShownAll(rows[1..]))
  }

  // ------------------------------------------------------------ checking an answer

  predicate Integer(s: string) {
    var digits := if s != "" && (s[0] == '-' || s[0] == '+') then s[1..] else s;
    digits != "" && AllDigits(digits)
  }

  function WithoutCommas(s: string): string {
    if s == "" then "" else (if s[0] == ',' then "" else [s[0]]) + WithoutCommas(s[1..])
  }

  predicate CellEqual(actual: string, expected: string) {
    (Integer(expected) ==> Integer(actual)) &&
    (DecimalEqual(WithoutCommas(actual), WithoutCommas(expected)) || actual == expected)
  }

  predicate RowEqual(actual: Row, expected: Row) {
    actual != [] && expected != [] && actual[0] == expected[0] && |actual| == |expected| &&
    forall k :: 1 <= k < |actual| ==> CellEqual(actual[k], expected[k])
  }

  predicate HasRow(rows: seq<Row>, expected: Row) {
    exists i :: 1 <= i < |rows| && RowEqual(rows[i], expected)
  }

  /** The answer shows a table with the wanted header and, in any order, the wanted rows. */
  predicate CheckTable(answer: string, wanted: seq<Row>) {
    var actual := ParseTable(answer);
    actual.Some? && wanted != [] && actual.value[0] == wanted[0] && |actual.value| == |wanted| &&
    DistinctKeys(wanted) &&
    forall i :: 1 <= i < |wanted| ==> HasRow(actual.value, wanted[i])
  }

  // ------------------------------------------------------------ what a table that was read looks like

  predicate Without(s: string, c: char) {
    forall k :: 0 <= k < |s| ==> s[k] != c
  }

  predicate PlainCell(c: string) {
    Trimmed(c) && Without(c, '|') && Without(c, '\n')
  }

  predicate PlainCells(cells: Row) {
    forall i :: 0 <= i < |cells| ==> PlainCell(cells[i])
  }

  predicate PlainRows(rows: seq<Row>) {
    forall i :: 0 <= i < |rows| ==> rows[i] != [] && PlainCells(rows[i]) && !AllRules(rows[i])
  }

  lemma {:induction false} TrimKeeps(s: string, c: char)
    ensures Trimmed(Trim(s)) && (Without(s, c) ==> Without(Trim(s), c))
  {
    hide Trim;
    TrimIsTrimmed(s);
    var i, j :| 0 <= i <= j <= |s| && Trim(s) == s[i..j];
    assert forall k :: 0 <= k < j - i ==> s[i..j][k] == s[i + k];
  }

  lemma {:induction false} CellsArePlain(line: string)
    requires Without(line, '\n')
    ensures PlainCells(Cells(line))
  {
    hide Trim;
    var parts := Split(line, {'|'});
    PartsWithout(line, {'|'}, '\n');
    var cells := TrimAll(parts);
    forall i | 0 <= i < |cells| ensures PlainCell(cells[i]) {
      assert Without(parts[i], '|');
      TrimKeeps(parts[i], '|');
      TrimKeeps(parts[i], '\n');
    }
  }

  lemma {:induction false} PartsWithout(s: string, breaks: set<char>, c: char)
    requires Without(s, c)
    ensures forall i :: 0 <= i < |Split(s, breaks)| ==> Without(Split(s, breaks)[i], c)
    decreases |s|
  {
    var i := FirstOf(s, breaks);
    if i < |s| { PartsWithout(s[i + 1..], breaks, c); }
  }

  lemma {:induction false} LinesWithout(text: string)
    ensures forall i :: 0 <= i < |Lines(text)| ==> Without(Lines(text)[i], '\n')
  {
    hide Split;
    var parts := Split(text, {'\n'});
    assert forall i | 0 <= i < |parts| :: Without(parts[i], '\n');
  }

  lemma {:induction false} GatherIsPlain(lines: seq<string>, rows: seq<Row>)
    requires PlainRows(rows) && forall i :: 0 <= i < |lines| ==> Without(lines[i], '\n')
    ensures PlainRows(Gather(lines, rows))
    decreases |lines|
  {
    hide Trim, Cells, HasBar, AllRules, PlainCells, Without;
    if lines != [] {
      var trimmed := Trim(lines[0]);
      TrimKeeps(lines[0], '\n');
      if HasBar(trimmed) {
        var cells := Cells(trimmed);
        CellsArePlain(trimmed);
        GatherIsPlain(lines[1..], if cells == [] || AllRules(cells) then rows else rows + [cells]);
      } else if rows == [] {
        GatherIsPlain(lines[1..], rows);
      }
    }
  }

  // ------------------------------------------------------------ showing and reading back

  /** Each cell between blanks, with the bar after it. */
  function Bars(cells: Row): string {
    if cells == [] then "" else " " + cells[0] + " " + "|" + Bars(cells[1..])
  }

  function Padded(cells: Row): (r: Row)
    ensures |r| == |cells| && forall i :: 0 <= i < |r| ==> r[i] == " " + cells[i] + " "
  {
    seq(|cells|, i requires 0 <= i < |cells| => " " + cells[i] + " ")
  }

  lemma {:induction false} JoinIsBars(cells: Row)
    requires cells != []
    ensures " " + JoinBars(cells) + " |" == Bars(cells)
    decreases |cells|
  {
    if |cells| > 1 {
      JoinIsBars(cells[1..]);
      BarsStep(cells[0], JoinBars(cells[1..]));
    } else {
      assert Bars(cells[1..]) == "";
    }
  }

  lemma {:induction false} BarsStep(c: string, j: string)
    ensures " " + (c + " | " + j) + " |" == " " + c + " " + "|" + (" " + j + " |")
  {
  }

  lemma {:induction false} ShownIsBars(cells: Row)
    requires cells != []
    ensures Shown(cells) == "|" + Bars(cells)
  {
    hide JoinBars, Bars;
    JoinIsBars(cells);
    assert "| " + JoinBars(cells) + " |" == "|" + (" " + JoinBars(cells) + " |");
  }

  lemma {:induction false} BarsSplit(cells: Row)
    requires forall i :: 0 <= i < |cells| ==> Without(cells[i], '|')
    ensures Split(Bars(cells), {'|'}) == Padded(cells) + [""]
    decreases |cells|
  {
    hide Split;
    if cells == [] {
      SplitOne("", {'|'});
    } else {
      BarsSplit(cells[1..]);
      var padded := " " + cells[0] + " ";
      assert forall k :: 0 <= k < |padded| ==> padded[k] !in {'|'} by {
        assert Without(cells[0], '|');
        assert forall k :: 0 <= k < |padded| ==> padded[k] == ' ' || padded[k] in cells[0];
      }
      SplitLine(padded, '|', Bars(cells[1..]), {'|'});
      assert Bars(cells) == padded + ['|'] + Bars(cells[1..]);
      assert Padded(cells) == [padded] + Padded(cells[1..]);
    }
  }

  lemma {:induction false} TrimPadded(c: string)
    requires Trimmed(c)
    ensures Trim(" " + c + " ") == c
  {
    var s := " " + c + " ";
    assert s[1..] == c + " ";
    if c == "" {
      assert s == "  " && s[1..] == " " && s[1..][1..] == "";
      assert TrimStart(s) == "";
    } else {
      assert TrimStart(s) == c + " ";
      assert (c + " ")[..|c|] == c;
      assert TrimEnd(c + " ") == c;
    }
  }

  lemma {:induction false} ShownSplits(cells: Row)
    requires cells != [] && PlainCells(cells)
    ensures Split(Shown(cells), {'|'}) == [""] + (Padded(cells) + [""])
  {
    hide Split, Bars, Shown;
    ShownIsBars(cells);
    assert forall i | 0 <= i < |cells| :: Without(cells[i], '|') by {
      assert forall i | 0 <= i < |cells| :: PlainCell(cells[i]);
    }
    BarsSplit(cells);
    SplitLine("", '|', Bars(cells), {'|'});
    assert "|" + Bars(cells) == "" + ['|'] + Bars(cells);
  }

  lemma {:induction false} TrimAllConcat(a: Row, b: Row)
    ensures TrimAll(a + b) == TrimAll(a) + TrimAll(b)
  {
    hide Trim;
  }

  lemma {:induction false} TrimAllPadded(cells: Row)
    requires PlainCells(cells)
    ensures TrimAll(Padded(cells)) == cells
  {
    hide Trim;
    forall i | 0 <= i < |cells| ensures Trim(" " + cells[i] + " ") == cells[i] {
      assert PlainCell(cells[i]);
      TrimPadded(cells[i]);
    }
  }

  lemma {:induction false} TrimAllEmpty()
    ensures TrimAll([""]) == [""]
  {
    assert Trim("") == "" by { TrimOfTrimmed(""); }
  }

  lemma {:induction false} TrimmedBack(cells: Row)
    requires PlainCells(cells)
    ensures TrimAll([""] + (Padded(cells) + [""])) == [""] + cells + [""]
  {
    hide Trim, Padded, TrimAll;
    TrimAllEmpty();
    TrimAllConcat([""], Padded(cells) + [""]);
    TrimAllConcat(Padded(cells), [""]);
    TrimAllPadded(cells);
    assert [""] + (cells + [""]) == [""] + cells + [""];
  }

  lemma {:induction false} ShownEnds(cells: Row)
    ensures Trim(Shown(cells)) == Shown(cells) && HasBar(Shown(cells))
    ensures Shown(cells) != "" && Shown(cells)[|Shown(cells)| - 1] == '|'
  {
    hide Trim, JoinBars;
    var s := Shown(cells);
    assert s[0] == '|' && s[|s| - 1] == '|';
    TrimOfTrimmed(s);
  }

  /** Reading a shown row gives its cells back. */
  lemma {:induction false} CellsOfShown(cells: Row)
    requires cells != [] && PlainCells(cells)
    ensures Trim(Shown(cells)) == Shown(cells) && HasBar(Shown(cells)) && Cells(Shown(cells)) == cells
    ensures WholeLine(Shown(cells))
  {
    hide Trim, Split, DropEnds, PlainCell, Shown, HasBar;
    ShownEnds(cells);
    ShownSplits(cells);
    TrimmedBack(cells);
    EndsDropped(cells);
    ShownOnOneLine(cells);
  }

  lemma {:induction false} EndsDropped(cells: Row)
    ensures DropEnds([""] + cells + [""]) == cells
  {
    var all := [""] + cells + [""];
    assert all[1..] == cells + [""];
    assert (cells + [""])[..|cells|] == cells;
  }

  lemma {:induction false} ShownOnOneLine(cells: Row)
    requires forall i :: 0 <= i < |cells| ==> PlainCell(cells[i])
    ensures Without(Shown(cells), '\n')
    decreases |cells|
  {
    if |cells| > 1 {
      ShownOnOneLine(cells[1..]);
      assert Shown(cells) == "| " + cells[0] + " " + Shown(cells[1..]);
    }
  }

  lemma {:induction false} RulerIsRule(n: nat)
    ensures AllRules(Ruler(n)) && PlainCells(Ruler(n))
  {
    assert Rule("---");
  }

  lemma {:induction false} GatherShown(rest: seq<Row>, rows: seq<Row>)
    requires PlainRows(rest)
    ensures Gather(ShownAll(rest), rows) == rows + rest
    decreases |rest|
  {
    hide Trim, Cells, HasBar, AllRules, PlainCells, Shown;
    if rest == [] {
      assert rows + rest == rows;
    } else {
      CellsOfShown(rest[0]);
      assert ShownAll(rest)[1..] == ShownAll(rest[1..]);
      GatherShown(rest[1..], rows + [rest[0]]);
      assert rows + [rest[0]] + rest[1..] == rows + rest;
    }
  }

  function Described(rows: seq<Row>): seq<string>
    requires rows != []
  {
    [Shown(rows[0]), Shown(Ruler(|rows[0]|))] + ShownAll(rows[1..])
  }

  lemma {:induction false} DescribedLines(rows: seq<Row>)
    requires PlainRows(rows) && rows != []
    ensures Lines(DescribeTable(rows)) == Described(rows)
  {
    hide Trim, Cells, HasBar, PlainCells, Shown, AllRules, Lines, JoinLines, WholeLine;
    var lines := Described(rows);
    RulerIsRule(|rows[0]|);
    CellsOfShown(rows[0]);
    CellsOfShown(Ruler(|rows[0]|));
    forall i | 0 <= i < |lines| ensures WholeLine(lines[i]) {
      if i >= 2 { CellsOfShown(rows[i - 1]); }
    }
    LinesOfJoined(lines);
  }

  lemma {:induction false} GatherDescribed(rows: seq<Row>)
    requires PlainRows(rows) && rows != []
    ensures Gather(Described(rows), []) == rows
  {
    hide Trim, Cells, HasBar, PlainCells, Shown, AllRules;
    var header, ruler, rest := Shown(rows[0]), Shown(Ruler(|rows[0]|)), ShownAll(rows[1..]);
    var lines := Described(rows);
    RulerIsRule(|rows[0]|);
    CellsOfShown(rows[0]);
    CellsOfShown(Ruler(|rows[0]|));
    GatherShown(rows[1..], [rows[0]]);
    hide Gather;
    assert lines[1..] == [ruler] + rest;
    GatherOne(lines, rows[0], []);
    GatherOne(lines[1..], Ruler(|rows[0]|), [rows[0]]);
    assert lines[1..][1..] == rest;
    assert [] + [rows[0]] == [rows[0]] && [rows[0]] + rows[1..] == rows;
  }

  lemma {:induction false} GatherOne(lines: seq<string>, cells: Row, rows: seq<Row>)
    requires lines != [] && lines[0] == Shown(cells) && cells != [] && PlainCells(cells)
    ensures Gather(lines, rows) == Gather(lines[1..], if AllRules(cells) then rows else rows + [cells])
  {
    hide Trim, Cells, HasBar, PlainCells, Shown, AllRules;
    CellsOfShown(cells);
  }

  /** Reading a described table gives the table back. */
  lemma {:induction false} DescribeParses(rows: seq<Row>)
    requires PlainRows(rows) && |rows| >= 2 && Rectangular(rows) && DistinctKeys(rows)
    ensures ParseTable(DescribeTable(rows)) == Some(rows)
  {
    hide PlainRows, Rectangular, DistinctKeys, Lines, DescribeTable, Described, Gather;
    DescribedLines(rows);
    GatherDescribed(rows);
  }

  /** Every table read from a tool result is shown to the model in a form that is read back as the same table, and the
      text shown is itself an accepted answer. */
  lemma {:induction false} ShownTableIsAccepted(text: string)
    requires ParseTable(text).Some?
    ensures var rows := ParseTable(text).value;
      ParseTable(DescribeTable(rows)) == Some(rows) && CheckTable(DescribeTable(rows), rows)
  {
    hide Gather, Lines, DescribeTable, PlainCells, Rectangular, CellEqual, AllRules;
    var rows := ParseTable(text).value;
    LinesWithout(text);
    GatherIsPlain(Lines(text), []);
    DescribeParses(rows);
    forall i | 1 <= i < |rows| ensures HasRow(rows, rows[i]) {
      assert forall k | 1 <= k < |rows[i]| :: CellEqual(rows[i][k], rows[i][k]) by { CellsEqualThemselves(rows[i]); }
      assert RowEqual(rows[i], rows[i]);
    }
  }

  lemma {:induction false} CellsEqualThemselves(row: Row)
    ensures forall k | 1 <= k < |row| :: CellEqual(row[k], row[k])
  {
  }

  // ------------------------------------------------------------ what an accepted answer shows

  /** Digits, after at most one sign. */
  predicate IntegerText(s: string) {
    s != "" && forall k :: 0 <= k < |s| ==> IsDigit(s[k]) || (k == 0 && |s| > 1 && (s[0] == '+' || s[0] == '-'))
  }

  /** The same text, or numerals within the bounds of `decimal_equal` that denote, commas removed, the same rational; and
      an integer is not answered by anything else. */
  predicate SameFigure(actual: string, wanted: string) {
    (IntegerText(wanted) ==> IntegerText(actual)) &&
    (actual == wanted ||
     (FitsWord(WithoutCommas(actual)) && FitsWord(WithoutCommas(wanted)) &&
      Denoted(WithoutCommas(actual)) == Denoted(WithoutCommas(wanted))))
  }

  /** Removing commas is done piece by piece, takes the commas and leaves everything else. */
  lemma {:induction false} CommasGo(a: string, b: string)
    ensures WithoutCommas(a + b) == WithoutCommas(a) + WithoutCommas(b)
    ensures Without(a, ',') ==> WithoutCommas(a) == a
    ensures WithoutCommas([',']) == ""
    decreases |a|
  {
    if a == "" {
      assert a + b == b;
    } else {
      assert (a + b)[1..] == a[1..] + b && a == [a[0]] + a[1..];
      CommasGo(a[1..], b);
    }
  }

  lemma {:induction false} IntegerIff(s: string)
    ensures Integer(s) <==> IntegerText(s)
  {
    if s != "" && (s[0] == '-' || s[0] == '+') {
      var digits := s[1..];
      assert forall k :: 1 <= k < |s| ==> s[k] == digits[k - 1];
      assert !IsDigit(s[0]);
    }
  }

  lemma {:induction false} CellIff(actual: string, wanted: string)
    ensures CellEqual(actual, wanted) <==> SameFigure(actual, wanted)
  {
    hide Integer, IntegerText, FitsWord, DecimalEqual;
    IntegerIff(actual);
    IntegerIff(wanted);
    DecimalEqualDecides(WithoutCommas(actual), WithoutCommas(wanted));
  }

  /** The same key, as many cells, and the same figure in each. */
  predicate RowShown(actual: Row, wanted: Row) {
    |actual| == |wanted| >= 1 && actual[0] == wanted[0] &&
    forall k :: 1 <= k < |wanted| ==> SameFigure(actual[k], wanted[k])
  }

  predicate ShownIn(rows: seq<Row>, wanted: Row) {
    exists i :: 1 <= i < |rows| && RowShown(rows[i], wanted)
  }

  /** The answer's table has the header wanted, as many rows, and shows each wanted row. */
  predicate ShowsTable(answer: string, wanted: seq<Row>) {
    ParseTable(answer).Some? &&
    var actual := ParseTable(answer).value;
    wanted != [] && actual[0] == wanted[0] && |actual| == |wanted| &&
    forall i :: 1 <= i < |wanted| ==> ShownIn(actual, wanted[i])
  }

  lemma {:induction false} RowIff(actual: Row, wanted: Row)
    ensures RowEqual(actual, wanted) <==> RowShown(actual, wanted)
  {
    hide CellEqual, SameFigure;
    forall k | 1 <= k < |actual| && k < |wanted| ensures CellEqual(actual[k], wanted[k]) <==> SameFigure(actual[k], wanted[k]) {
      CellIff(actual[k], wanted[k]);
    }
  }

  /** An answer is accepted for a table with distinct keys exactly when it shows every wanted row. */
  lemma {:induction false} AcceptedShows(answer: string, wanted: seq<Row>)
    ensures CheckTable(answer, wanted) <==> DistinctKeys(wanted) && ShowsTable(answer, wanted)
  {
    hide ParseTable, RowEqual, RowShown, DistinctKeys;
    if ParseTable(answer).Some? {
      var actual := ParseTable(answer).value;
      forall i | 1 <= i < |wanted| ensures HasRow(actual, wanted[i]) <==> ShownIn(actual, wanted[i]) {
        forall j | 1 <= j < |actual| ensures RowEqual(actual[j], wanted[i]) <==> RowShown(actual[j], wanted[i]) {
          RowIff(actual[j], wanted[i]);
        }
      }
    }
  }

  function KeySet(rows: seq<Row>): (r: set<string>)
    requires forall i :: 0 <= i < |rows| ==> rows[i] != []
    ensures forall i :: 0 <= i < |rows| ==> rows[i][0] in r
    ensures forall k :: k in r ==> exists i :: 0 <= i < |rows| && rows[i][0] == k
  {
    if rows == [] then {} else {rows[0][0]} + KeySet(rows[1..])
  }

  lemma {:induction false} KeyCount(rows: seq<Row>)
    requires forall i :: 0 <= i < |rows| ==> rows[i] != []
    requires forall i, j :: 0 <= i < j < |rows| ==> rows[i][0] != rows[j][0]
    ensures |KeySet(rows)| == |rows|
    decreases |rows|
  {
    if rows != [] { KeyCount(rows[1..]); }
  }

  /** Nor does an accepted answer show anything else: each of its rows is a wanted one. */
  lemma {:induction false} NothingElseShown(answer: string, wanted: seq<Row>, j: nat)
    requires CheckTable(answer, wanted) && 1 <= j < |ParseTable(answer).value|
    ensures exists i :: 1 <= i < |wanted| && RowShown(ParseTable(answer).value[j], wanted[i])
  {
    hide SameFigure, Gather, Lines, PlainCells, AllRules, CheckTable;
    AcceptedShows(answer, wanted);
    assert DistinctKeys(wanted) by { hide ShowsTable; }
    var actual := ParseTable(answer).value;
    LinesWithout(answer);
    GatherIsPlain(Lines(answer), []);
    var shown, asked := actual[1..], wanted[1..];
    forall i | 0 <= i < |asked| ensures asked[i] != [] && asked[i][0] in KeySet(shown) {
      assert ShownIn(actual, wanted[i + 1]);
      var k :| 1 <= k < |actual| && RowShown(actual[k], wanted[i + 1]);
      assert shown[k - 1] == actual[k];
    }
    KeyCount(shown);
    KeyCount(asked);
    FullSubset(KeySet(asked), KeySet(shown));
    assert shown[j - 1][0] in KeySet(asked);
    var i :| 0 <= i < |asked| && asked[i][0] == shown[j - 1][0];
    assert ShownIn(actual, wanted[i + 1]);
    var k :| 1 <= k < |actual| && RowShown(actual[k], wanted[i + 1]);
    assert k == j by { assert actual[k][0] == actual[j][0]; }
  }
}
