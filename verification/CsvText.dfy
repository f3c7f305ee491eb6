/** The text of a CSV file, and what rewriting it in place leaves behind. */
module CsvText {
  import opened StringUtils

  // ----- one line -----

  predicate EndsWith(line: string, d: char) {
    line != "" && line[|line| - 1] == d
  }

  /** The columns that repeated `getline` yields: an empty column at the very end is not seen. */
  function Columns(line: string, d: char): seq<string> {
    var parts := Parts(line, [d]);
    if parts[|parts| - 1] == "" then parts[..|parts| - 1] else parts
  }

  /** formatLine, for a row that has columns. */
  function RowText(row: seq<string>, d: char): string {
    Joined(row, [d])
  }

  function WithoutLast(line: string, d: char): string {
    if EndsWith(line, d) then line[..|line| - 1] else line
  }

  lemma {:induction false} PartsEnd(line: string, d: char)
    ensures Parts(line, [d])[|Parts(line, [d])| - 1] == "" <==> line == "" || EndsWith(line, d)
    ensures |Parts(line, [d])| == 1 <==> d !in line
    decreases |line|
  {
    var p := Find(line, [d]);
    if p != NPOS {
      var rest := line[p + 1..];
      PartsEnd(rest, d);
      assert line[p..p + 1][0] == d;
      assert rest != "" ==> rest[|rest| - 1] == line[|line| - 1];
    } else if d in line {
      var j :| 0 <= j < |line| && line[j] == d;
      assert OccursAt(line, [d], j);
    }
  }

  /** Printing the columns of a line gives the line back, but for one delimiter at its end. */
  lemma RowTextOfColumns(line: string, d: char)
    requires line != ""
    ensures Columns(line, d) != []
    ensures RowText(Columns(line, d), d) == WithoutLast(line, d)
  {
    var parts := Parts(line, [d]);
    PartsEnd(line, d);
    JoinUndoesSplit(line, [d]);
    if EndsWith(line, d) {
      assert d in line;
      assert parts == parts[..|parts| - 1] + [""];
      JoinedSnoc(parts[..|parts| - 1], [d], "");
      assert line == RowText(Columns(line, d), d) + [d] + "";
    }
  }

  /** A field the file can hold. */
  predicate SafeField(f: string, d: char) {
    f != "" && d !in f && '\n' !in f
  }

  predicate SafeRow(row: seq<string>, d: char) {
    row != [] && forall k :: 0 <= k < |row| ==> SafeField(row[k], d)
  }

  /** Parsing a printed row gives the row back. */
  lemma ColumnsOfRowText(row: seq<string>, d: char)
    requires SafeRow(row, d)
    ensures Columns(RowText(row, d), d) == row
  {
    SplitUndoesJoin(row, d);
  }

  lemma {:induction false} RowTextShape(row: seq<string>, d: char)
    requires SafeRow(row, d) && d != '\n'
    ensures RowText(row, d) != "" && '\n' !in RowText(row, d) && !EndsWith(RowText(row, d), d)
  {
    if |row| > 1 {
      RowTextShape(row[1..], d);
      var rest := RowText(row[1..], d);
      assert RowText(row, d) == row[0] + [d] + rest;
      assert RowText(row, d)[|RowText(row, d)| - 1] == rest[|rest| - 1];
    }
  }

  // ----- the whole file -----

  function Lines(content: string): seq<string> {
    Parts(content, "\n")
  }

  function FileRows(content: string, d: char): (rows: seq<seq<string>>)
    ensures |rows| == |Lines(content)|
    ensures forall k :: 0 <= k < |rows| ==> rows[k] == Columns(Lines(content)[k], d)
  {
    RowsOf(Lines(content), d)
  }

  function RowsOf(lines: seq<string>, d: char): (rows: seq<seq<string>>)
    ensures |rows| == |lines|
    ensures forall k :: 0 <= k < |rows| ==> rows[k] == Columns(lines[k], d)
  {
    seq(|lines|, k requires 0 <= k < |lines| => Columns(lines[k], d))
  }

  function RowTexts(rows: seq<seq<string>>, d: char): (lines: seq<string>)
    ensures |lines| == |rows|
    ensures forall k :: 0 <= k < |lines| ==> lines[k] == RowText(rows[k], d)
  {
    seq(|rows|, k requires 0 <= k < |rows| => RowText(rows[k], d))
  }

  function FileText(rows: seq<seq<string>>, d: char): string {
    Joined(RowTexts(rows, d), "\n")
  }

  predicate SafeRows(rows: seq<seq<string>>, d: char) {
    forall k :: 0 <= k < |rows| ==> SafeRow(rows[k], d)
  }

  /** Parsing a printed table gives the table back. */
  lemma FileRowsOfText(rows: seq<seq<string>>, d: char)
    requires rows != [] && SafeRows(rows, d) && d != '\n'
    ensures FileRows(FileText(rows, d), d) == rows
    ensures Lines(FileText(rows, d)) == RowTexts(rows, d)
  {
    forall k | 0 <= k < |rows|
      ensures '\n' !in RowText(rows[k], d) && Columns(RowText(rows[k], d), d) == rows[k]
    {
      RowTextShape(rows[k], d);
      ColumnsOfRowText(rows[k], d);
    }
    SplitUndoesJoin(RowTexts(rows, d), '\n');
  }

  // ----- rewriting in place -----

  /** Every line can be printed again, and comes out as it was. */
  predicate Stable(content: string, d: char) {
    forall k :: 0 <= k < |Lines(content)| ==> Lines(content)[k] != "" && !EndsWith(Lines(content)[k], d)
  }

  /** Writing `text` over the start of a file without shortening it. */
  function Overwritten(content: string, text: string): string {
    text + if |text| < |content| then content[|text|..] else ""
  }

  predicate Matches(row: seq<string>, column: nat, searchFor: string) {
    |row| > column && row[column] == searchFor
  }

  function Extended(row: seq<string>, column: nat, searchFor: string, more: seq<string>): seq<string> {
    if Matches(row, column, searchFor) then row + more else row
  }

  function ExtendedAll(rows: seq<seq<string>>, column: nat, searchFor: string, more: seq<string>): (r: seq<seq<string>>)
    ensures |r| == |rows|
    ensures forall k :: 0 <= k < |r| ==> r[k] == Extended(rows[k], column, searchFor, more)
  {
    seq(|rows|, k requires 0 <= k < |rows| => Extended(rows[k], column, searchFor, more))
  }

  /** What is put behind a matching line. */
  function Suffix(more: seq<string>, d: char): string {
    if more == [] then "" else Suffix(more[..|more| - 1], d) + [d] + more[|more| - 1]
  }

  function LineAfter(line: string, d: char, column: nat, searchFor: string, more: seq<string>): string {
    if Matches(Columns(line, d), column, searchFor) then line + Suffix(more, d) else line
  }

  function LinesAfter(lines: seq<string>, d: char, column: nat, searchFor: string, more: seq<string>): (r: seq<string>)
    ensures |r| == |lines|
    ensures forall k :: 0 <= k < |r| ==> r[k] == LineAfter(lines[k], d, column, searchFor, more)
  {
    seq(|lines|, k requires 0 <= k < |lines| => LineAfter(lines[k], d, column, searchFor, more))
  }

  lemma {:induction false} JoinedMore(row: seq<string>, more: seq<string>, d: char)
    requires row != []
    ensures Joined(row + more, [d]) == Joined(row, [d]) + Suffix(more, d)
  {
    if more == [] {
      assert row + more == row;
    } else {
      var front, last := more[..|more| - 1], more[|more| - 1];
      JoinedMore(row, front, d);
      assert row + more == (row + front) + [last];
      JoinedSnoc(row + front, [d], last);
      assert Joined(row, [d]) + (Suffix(front, d) + [d] + last) == Joined(row, [d]) + Suffix(front, d) + [d] + last;
    }
  }

  lemma {:induction false} JoinedNotShorter(a: seq<string>, b: seq<string>, d: string)
    requires |a| == |b| && forall k :: 0 <= k < |a| ==> |a[k]| <= |b[k]|
    ensures |Joined(a, d)| <= |Joined(b, d)|
  {
    if |a| > 1 {
      JoinedNotShorter(a[1..], b[1..], d);
    }
  }

  lemma RewrittenLine(line: string, d: char, column: nat, searchFor: string, more: seq<string>)
    requires line != "" && !EndsWith(line, d)
    ensures Columns(line, d) != []
    ensures RowText(Extended(Columns(line, d), column, searchFor, more), d) == LineAfter(line, d, column, searchFor, more)
  {
    RowTextOfColumns(line, d);
    JoinedMore(Columns(line, d), more, d);
  }

  /**
   * Rewriting a stable file leaves no stale characters behind: the result is the old lines, with the
   * new columns behind the matching ones and nothing else changed.
   */
  lemma RewriteComplete(content: string, d: char, column: nat, searchFor: string, more: seq<string>)
    requires Stable(content, d)
    ensures
      var text := FileText(ExtendedAll(FileRows(content, d), column, searchFor, more), d);
      && Overwritten(content, text) == text
      && text == Joined(LinesAfter(Lines(content), d, column, searchFor, more), "\n")
  {
    var lines := Lines(content);
    var after := LinesAfter(lines, d, column, searchFor, more);
    var rows := ExtendedAll(FileRows(content, d), column, searchFor, more);
    forall k | 0 <= k < |lines| ensures RowText(rows[k], d) == after[k] && |lines[k]| <= |after[k]| {
      RewrittenLine(lines[k], d, column, searchFor, more);
    }
    assert RowTexts(rows, d) == after;
    JoinedNotShorter(lines, after, "\n");
    JoinUndoesSplit(content, "\n");
  }

  lemma {:induction false} JoinedShorter(a: seq<string>, b: seq<string>, d: string, k: nat)
    requires |a| == |b| && (forall k :: 0 <= k < |a| ==> |a[k]| <= |b[k]|)
    requires k < |a| && |a[k]| < |b[k]|
    ensures |Joined(a, d)| < |Joined(b, d)|
  {
    if |a| > 1 {
      JoinedNotShorter(a[1..], b[1..], d);
      if k > 0 {
        JoinedShorter(a[1..], b[1..], d, k - 1);
      }
    }
  }

  lemma RowTextsOfFile(content: string, d: char)
    requires forall k :: 0 <= k < |Lines(content)| ==> Lines(content)[k] != ""
    ensures |RowTexts(FileRows(content, d), d)| == |Lines(content)|
    ensures forall k :: 0 <= k < |Lines(content)| ==>
      RowTexts(FileRows(content, d), d)[k] == WithoutLast(Lines(content)[k], d)
  {
    var lines, rows := Lines(content), FileRows(content, d);
    forall k | 0 <= k < |lines| ensures RowText(rows[k], d) == WithoutLast(lines[k], d) {
      RowTextOfColumns(lines[k], d);
    }
  }

  lemma StableTextBack(content: string, d: char)
    requires Stable(content, d)
    ensures FileText(FileRows(content, d), d) == content
  {
    RowTextsOfFile(content, d);
    JoinUndoesSplit(content, "\n");
    assert RowTexts(FileRows(content, d), d) == Lines(content);
  }

  lemma ShorterText(content: string, d: char, k: nat)
    requires forall j :: 0 <= j < |Lines(content)| ==> Lines(content)[j] != ""
    requires k < |Lines(content)| && EndsWith(Lines(content)[k], d)
    ensures |FileText(FileRows(content, d), d)| < |content|
  {
    RowTextsOfFile(content, d);
    JoinUndoesSplit(content, "\n");
    JoinedShorter(RowTexts(FileRows(content, d), d), Lines(content), "\n", k);
  }

  /** Printing the rows of a file gives the file back exactly if no line ends with the delimiter. */
  lemma UnchangedExactly(content: string, d: char)
    requires forall k :: 0 <= k < |Lines(content)| ==> Lines(content)[k] != ""
    ensures FileText(FileRows(content, d), d) == content <==> Stable(content, d)
  {
    if Stable(content, d) {
      StableTextBack(content, d);
    } else {
      var k :| 0 <= k < |Lines(content)| && EndsWith(Lines(content)[k], d);
      ShorterText(content, d, k);
    }
  }

  lemma TwoLines(a: string, b: string)
    requires '\n' !in a && '\n' !in b
    ensures Lines(a + "\n" + b) == [a, b]
  {
    assert [a, b][1..] == [b];
    SplitUndoesJoin([a, b], '\n');
  }

  lemma FieldAndDelimiter(a: string, d: char)
    requires SafeField(a, d)
    ensures Columns(a + [d], d) == [a] && Columns(a, d) == [a]
  {
    assert [a, ""][1..] == [""];
    assert Joined([a, ""], [d]) == a + [d];
    SplitUndoesJoin([a, ""], d);
    assert [a, ""][..1] == [a];
    ColumnsOfRowText([a], d);
  }

  lemma TwoRowTexts(a: string, b: string, d: char)
    ensures FileText([[a], [b]], d) == a + "\n" + b
  {
    assert RowTexts([[a], [b]], d) == [a, b];
    assert [a, b][1..] == [b];
    assert Joined([b], "\n") == b;
  }

  lemma StaleEnd(a: string, b: string, d: char)
    requires b != ""
    ensures Overwritten(a + [d] + "\n" + b, a + "\n" + b) == a + "\n" + b + [b[|b| - 1]]
  {
    var content, text := a + [d] + "\n" + b, a + "\n" + b;
    assert |content| == |text| + 1;
    assert content[|text|..] == [b[|b| - 1]];
  }

  /** A first line that ends with the delimiter is damaging: a rewrite that matches nothing repeats a character. */
  lemma StaleCharacters(a: string, b: string, z: string, d: char, more: seq<string>)
    requires d != '\n' && SafeField(a, d) && SafeField(b, d) && z != a && z != b
    ensures
      var content := a + [d] + "\n" + b;
      Overwritten(content, FileText(ExtendedAll(FileRows(content, d), 0, z, more), d))
      == a + "\n" + b + [b[|b| - 1]]
  {
    TwoLines(a + [d], b);
    FieldAndDelimiter(a, d);
    FieldAndDelimiter(b, d);
    assert FileRows(a + [d] + "\n" + b, d) == [[a], [b]];
    assert ExtendedAll([[a], [b]], 0, z, more) == [[a], [b]];
    TwoRowTexts(a, b, d);
    StaleEnd(a, b, d);
  }
}
