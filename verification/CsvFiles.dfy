/** CSVReader and CSVWriter over a file that is read line by line and rewritten in place. */
module CsvFiles {
  import opened StringUtils
  import opened CsvText

  /** A file by name; it may not exist yet. */
  class Disk {
    var present: bool
    var content: string

    constructor (present: bool, content: string)
      ensures this.present == present && this.content == content
    {
      this.present, this.content := present, content;
    }
  }

  lemma LinesStep(s: string)
    ensures
      var p := Find(s, "\n");
      Lines(s) == if p == NPOS then [s] else [s[..p]] + Lines(s[p + 1..])
  {
  }

  lemma LinesAt(s: string, pos: nat)
    requires pos <= |s|
    ensures
      var p := Find(s[pos..], "\n");
      && (p == NPOS ==> Lines(s[pos..]) == [s[pos..]])
      && (p != NPOS ==> pos + p + 1 <= |s| && Lines(s[pos..]) == [s[pos..][..p]] + Lines(s[pos + p + 1..]))
  {
    LinesStep(s[pos..]);
    var p := Find(s[pos..], "\n");
    assert p != NPOS ==> s[pos + p + 1..] == s[pos..][p + 1..];
  }

  lemma OnlyRow(s: string, d: char, line: string)
    requires Lines(s) == [line]
    ensures FileRows(s, d) == [Columns(line, d)] && LastEmpty(s) == (line == "")
  {
  }

  lemma NextRow(s: string, d: char, line: string, rest: string)
    requires Lines(s) == [line] + Lines(rest)
    ensures FileRows(s, d) == [Columns(line, d)] + FileRows(rest, d) && LastEmpty(s) == LastEmpty(rest)
  {
  }

  lemma ColumnsStep(line: string, d: char)
    ensures
      var p := Find(line, [d]);
      Columns(line, d) ==
      if line == "" then []
      else if p == NPOS then [line]
      else [line[..p]] + Columns(line[p + 1..], d)
  {
    var p := Find(line, [d]);
    if p != NPOS {
      var parts, rest := Parts(line, [d]), Parts(line[p + 1..], [d]);
      assert parts == [line[..p]] + rest;
      assert parts[|parts| - 1] == rest[|rest| - 1];
      if rest[|rest| - 1] == "" {
        assert parts[..|parts| - 1] == [line[..p]] + rest[..|rest| - 1];
      }
    }
  }

  lemma ColumnsAt(line: string, d: char, pos: nat)
    requires pos < |line|
    ensures
      var p := Find(line[pos..], [d]);
      && (p == NPOS ==> Columns(line[pos..], d) == [line[pos..]])
      && (p != NPOS ==>
            && pos + p + 1 <= |line|
            && Columns(line[pos..], d) == [line[pos..][..p]] + Columns(line[pos + p + 1..], d))
  {
    ColumnsStep(line[pos..], d);
    var p := Find(line[pos..], [d]);
    assert p != NPOS ==> line[pos + p + 1..] == line[pos..][p + 1..];
  }

  lemma Regrouped<T>(xs: seq<T>, x: T, ys: seq<T>)
    ensures xs + ([x] + ys) == xs + [x] + ys
  {
  }

  /** `std::getline` up to the delimiter, with something left to read. */
  method NextColumn(line: string, d: char, pos: nat) returns (column: string, next: nat)
    requires pos < |line|
    ensures pos < next <= |line|
    ensures Columns(line[pos..], d) == [column] + Columns(line[next..], d)
  {
    ColumnsAt(line, d, pos);
    var p := Find(line[pos..], [d]);
    if p == NPOS {
      column, next := line[pos..], |line|;
      ColumnsStep("", d);
      assert line[next..] == "";
    } else {
      column, next := line[pos..][..p], pos + p + 1;
    }
  }

  /** `std::getline` on one line until it fails. */
  method ParseColumns(line: string, d: char) returns (row: seq<string>)
    ensures row == Columns(line, d)
  {
    row := [];
    var pos := 0;
    ghost var left := Columns(line, d);
    assert line[0..] == line && [] + left == left;
    while pos < |line|
      invariant 0 <= pos <= |line|
      invariant left == Columns(line[pos..], d)
      invariant Columns(line, d) == row + left
    {
      var column, next := NextColumn(line, d, pos);
      left := Columns(line[next..], d);
      Regrouped(row, column, left);
      row := row + [column];
      pos := next;
    }
    ColumnsStep("", d);
    assert line[pos..] == "";
  }

  lemma OverwriteMore(old_: string, text: string, more: string)
    ensures
      var s := Overwritten(old_, text);
      var t := Overwritten(old_, text + more);
      && |s| >= |text| && s[..|text|] == text
      && t == text + more + if |text| + |more| < |s| then s[|text| + |more|..] else ""
  {
  }

  /** The parts of `std::fstream` in use. */
  class FStream {
    const disk: Disk
    var isOpen: bool
    var position: nat
    var eof: bool
    var fail: bool

    constructor (disk: Disk)
      ensures this.disk == disk && !isOpen && !eof && !fail
    {
      this.disk := disk;
      isOpen, position, eof, fail := false, 0, false, false;
    }

    method OpenIn()
      modifies this
      ensures isOpen == disk.present && fail == !disk.present && (isOpen ==> !eof && position == 0)
    {
      isOpen, fail := disk.present, !disk.present;
      if isOpen {
        position, eof := 0, false;
      }
    }

    /** Creates the file, or empties it. */
    method OpenOut()
      modifies this, disk
      ensures disk.present && disk.content == "" && isOpen && !eof && !fail && position == 0
    {
      disk.present, disk.content := true, "";
      isOpen, position, eof, fail := true, 0, false, false;
    }

    method Close()
      modifies this`isOpen
      ensures !isOpen
    {
      isOpen := false;
    }

    method Seek(p: nat)
      modifies this`position, this`eof
      ensures !eof && position == if fail then old(position) else p
    {
      eof := false;
      if !fail {
        position := p;
      }
    }

    /** `std::getline`; at the end of the file it sets `eof`, and `fail` too if nothing was left. */
    method GetLine() returns (line: string)
      requires !eof && !fail && position <= |disk.content|
      modifies this`position, this`eof, this`fail
      ensures position <= |disk.content|
      ensures eof ==> Lines(disk.content[old(position)..]) == [line] && fail == (line == "")
      ensures !eof ==> !fail && old(position) < position
      ensures !eof ==> Lines(disk.content[old(position)..]) == [line] + Lines(disk.content[position..])
    {
      LinesAt(disk.content, position);
      var rest := disk.content[position..];
      var p := Find(rest, "\n");
      if p == NPOS {
        line := rest;
        position, eof, fail := |disk.content|, true, rest == "";
      } else {
        line := rest[..p];
        position := position + p + 1;
      }
    }

    /** Replaces what is at the position, and what is behind it stays. */
    method Write(text: string)
      requires position <= |disk.content|
      modifies this`position, disk`content
      ensures fail ==> disk.content == old(disk.content) && position == old(position)
      ensures !fail ==> position == old(position) + |text|
      ensures !fail ==>
        disk.content == old(disk.content)[..old(position)] + text
                        + if position < |old(disk.content)| then old(disk.content)[position..] else ""
    {
      if !fail {
        var end := position + |text|;
        disk.content := disk.content[..position] + text + if end < |disk.content| then disk.content[end..] else "";
        position := end;
      }
    }

    method ReadRow(d: char) returns (row: seq<string>)
      requires !eof && !fail && position <= |disk.content|
      modifies this`position, this`eof, this`fail
      ensures position <= |disk.content|
      ensures eof ==> FileRows(disk.content[old(position)..], d) == [row]
      ensures eof ==> fail == LastEmpty(disk.content[old(position)..])
      ensures !eof ==> !fail && old(position) < position
      ensures !eof ==> FileRows(disk.content[old(position)..], d) == [row] + FileRows(disk.content[position..], d)
      ensures !eof ==> LastEmpty(disk.content[old(position)..]) == LastEmpty(disk.content[position..])
    {
      ghost var before := disk.content[position..];
      var line := GetLine();
      row := ParseColumns(line, d);
      if eof {
        OnlyRow(before, d, line);
      } else {
        NextRow(before, d, line, disk.content[position..]);
      }
    }

    /** The loop of readAll and appendToLine: every line, split into columns. */
    method ReadRows(d: char) returns (rows: seq<seq<string>>)
      requires !fail
      modifies this`position, this`eof, this`fail
      ensures rows == FileRows(disk.content, d)
      ensures eof && fail == LastEmpty(disk.content)
    {
      Seek(0);
      rows := [];
      ghost var content, left := disk.content, FileRows(disk.content, d);
      assert content[0..] == content && [] + left == left;
      while !eof
        invariant position <= |content|
        invariant !eof ==> !fail && left == FileRows(content[position..], d)
        invariant !eof ==> LastEmpty(content) == LastEmpty(content[position..])
        invariant eof ==> left == [] && fail == LastEmpty(content)
        invariant FileRows(content, d) == rows + left
        decreases if eof then 0 else 1, |content| - position
      {
        var row := ReadRow(d);
        left := if eof then [] else FileRows(content[position..], d);
        Regrouped(rows, row, left);
        rows := rows + [row];
      }
    }
  }

  ghost predicate LastEmpty(s: string) {
    Lines(s)[|Lines(s)| - 1] == ""
  }

  function Existing(present: bool, content: string): string {
    if present then content else ""
  }

  /** A new row goes behind the last one. */
  function Appended(content: string, rowText: string): string {
    if content == "" then rowText else content + "\n" + rowText
  }

  /** What appendToLine leaves in the file. */
  function Rewritten(content: string, d: char, column: nat, searchFor: string, more: seq<string>): string {
    Overwritten(content, FileText(ExtendedAll(FileRows(content, d), column, searchFor, more), d))
  }

  /** Every row that is printed has a column; formatLine is undefined on an empty row. */
  predicate Formattable(content: string) {
    Lines(content)[0] == "" || forall k :: 0 <= k < |Lines(content)| ==> Lines(content)[k] != ""
  }

  lemma NoColumns(line: string, d: char)
    ensures Columns(line, d) == [] <==> line == ""
  {
    ColumnsStep(line, d);
  }

  class CSVWriter {
    const m_file: FStream
    var m_delimiter: char

    constructor (disk: Disk)
      ensures m_file.disk == disk && fresh(m_file)
    {
      m_file := new FStream(disk);
      m_delimiter := ',';
    }

    predicate Ready()
      reads this, m_file
    {
      m_file.isOpen && !m_file.eof && !m_file.fail
    }

    /** Opens the file for reading and writing; it is created when it does not exist. */
    method Open(delimiter: char) returns (ok: bool)
      modifies this, m_file, m_file.disk
      ensures ok && Ready() && m_delimiter == delimiter && m_file.position == 0
      ensures m_file.disk.present
      ensures m_file.disk.content == Existing(old(m_file.disk.present), old(m_file.disk.content))
    {
      m_file.OpenIn();
      if !m_file.isOpen {
        m_file.OpenOut();
      }
      m_file.Close();
      m_file.OpenIn();
      m_delimiter := delimiter;
      ok := m_file.isOpen;
    }

    method IsEmpty() returns (empty: bool)
      requires Ready() && m_file.position <= |m_file.disk.content|
      modifies m_file`position, m_file`eof
      ensures Ready() && empty == (m_file.disk.content == "")
      ensures m_file.position == old(m_file.position)
    {
      var currentPos := m_file.position;
      m_file.Seek(|m_file.disk.content|);
      if m_file.position == 0 {
        return true;
      }
      m_file.Seek(currentPos);
      return false;
    }

    method FormatLine(line: seq<string>) returns (formatted: string)
      requires line != []
      ensures formatted == RowText(line, m_delimiter)
    {
      formatted := line[0];
      var i := 1;
      assert line[..1] == [line[0]];
      while i < |line|
        invariant 1 <= i <= |line|
        invariant formatted == RowText(line[..i], m_delimiter)
      {
        JoinedSnoc(line[..i], [m_delimiter], line[i]);
        assert line[..i + 1] == line[..i] + [line[i]];
        formatted := formatted + [m_delimiter] + line[i];
        i := i + 1;
      }
      assert line[..i] == line;
    }

    method Append(row: seq<string>) returns (ok: bool)
      requires Ready() && m_file.position == 0
      modifies m_file`position, m_file`eof, m_file.disk`content
      ensures ok == (row != [])
      ensures m_file.disk.content ==
              if ok then Appended(old(m_file.disk.content), RowText(row, m_delimiter)) else old(m_file.disk.content)
    {
      if |row| == 0 {
        return false;
      }
      var formattedRow := FormatLine(row);
      var empty := IsEmpty();
      ghost var before := m_file.disk.content;
      if empty {
        m_file.Write(formattedRow);
        assert before[..0] == "";
      } else {
        m_file.Seek(|m_file.disk.content|);
        m_file.Write("\n" + formattedRow);
        assert before[..|before|] == before;
      }
      return true;
    }

    /** Puts the new columns behind the rows that match; `ok` is false when there is no first row. */
    method AppendToLine(column: nat, searchFor: string, newColumns: seq<string>) returns (ok: bool)
      requires Ready() && Formattable(m_file.disk.content)
      modifies m_file`position, m_file`eof, m_file`fail, m_file.disk`content
      ensures ok == (Lines(old(m_file.disk.content))[0] != "")
      ensures m_file.disk.content ==
              if ok then Rewritten(old(m_file.disk.content), m_delimiter, column, searchFor, newColumns)
              else old(m_file.disk.content)
    {
      ghost var content := m_file.disk.content;
      var rows := m_file.ReadRows(m_delimiter);
      var extended := ExtendRows(rows, column, searchFor, newColumns);
      m_file.Seek(0);
      NoColumns(Lines(content)[0], m_delimiter);
      if |extended[0]| == 0 {
        return false;
      }
      forall k | 0 <= k < |rows| ensures extended[k] != [] {
        NoColumns(Lines(content)[k], m_delimiter);
      }
      WriteRows(extended);
      return true;
    }

    /** The inner loops of appendToLine. */
    method ExtendRows(rows: seq<seq<string>>, column: nat, searchFor: string, newColumns: seq<string>)
      returns (extended: seq<seq<string>>)
      ensures extended == ExtendedAll(rows, column, searchFor, newColumns)
    {
      extended := rows;
      for i := 0 to |rows|
        invariant |extended| == |rows|
        invariant forall k :: 0 <= k < i ==> extended[k] == Extended(rows[k], column, searchFor, newColumns)
        invariant forall k :: i <= k < |rows| ==> extended[k] == rows[k]
      {
        if |extended[i]| > column && extended[i][column] == searchFor {
          for j := 0 to |newColumns|
            invariant |extended| == |rows|
            invariant extended[i] == rows[i] + newColumns[..j]
            invariant forall k :: 0 <= k < i ==> extended[k] == Extended(rows[k], column, searchFor, newColumns)
            invariant forall k :: i < k < |rows| ==> extended[k] == rows[k]
          {
            assert newColumns[..j + 1] == newColumns[..j] + [newColumns[j]];
            extended := extended[i := extended[i] + [newColumns[j]]];
          }
          assert newColumns[..|newColumns|] == newColumns;
        }
      }
    }

    /** Writes all rows from the start of the file, and does not shorten it. */
    method WriteRows(rows: seq<seq<string>>)
      requires rows != [] && forall k :: 0 <= k < |rows| ==> rows[k] != []
      requires !m_file.fail && m_file.position == 0
      modifies m_file`position, m_file.disk`content
      ensures m_file.disk.content == Overwritten(old(m_file.disk.content), FileText(rows, m_delimiter))
    {
      ghost var content := m_file.disk.content;
      var line := FormatLine(rows[0]);
      m_file.Write(line);
      assert content[..0] == "" && RowTexts(rows[..1], m_delimiter) == [line];
      var i := 1;
      while i < |rows|
        invariant 1 <= i <= |rows|
        invariant m_file.position == |FileText(rows[..i], m_delimiter)|
        invariant m_file.disk.content == Overwritten(content, FileText(rows[..i], m_delimiter))
      {
        line := FormatLine(rows[i]);
        OverwriteMore(content, FileText(rows[..i], m_delimiter), "\n" + line);
        FileTextStep(rows, m_delimiter, i);
        m_file.Write("\n" + line);
        i := i + 1;
      }
      assert rows[..i] == rows;
    }
  }

  lemma FileTextStep(rows: seq<seq<string>>, d: char, i: nat)
    requires 0 < i < |rows|
    ensures FileText(rows[..i + 1], d) == FileText(rows[..i], d) + ("\n" + RowText(rows[i], d))
  {
    var front, last := RowTexts(rows[..i], d), RowText(rows[i], d);
    assert RowTexts(rows[..i + 1], d) == front + [last];
    JoinedSnoc(front, "\n", last);
    assert Joined(front, "\n") + ("\n" + last) == Joined(front, "\n") + "\n" + last;
  }

  class CSVReader {
    const m_file: FStream
    var m_delimiter: char

    constructor (disk: Disk)
      ensures m_file.disk == disk && fresh(m_file)
    {
      m_file := new FStream(disk);
      m_delimiter := ',';
    }

    method Open(delimiter: char) returns (ok: bool)
      modifies this, m_file
      ensures ok == m_file.isOpen == m_file.disk.present && m_delimiter == delimiter
      ensures ok ==> !m_file.fail
    {
      m_file.OpenIn();
      m_delimiter := delimiter;
      ok := m_file.isOpen;
    }

    method ReadAll() returns (rows: seq<seq<string>>)
      requires m_file.isOpen ==> !m_file.fail
      modifies m_file`position, m_file`eof, m_file`fail
      ensures rows == if m_file.isOpen then FileRows(m_file.disk.content, m_delimiter) else []
    {
      rows := [];
      if m_file.isOpen {
        rows := m_file.ReadRows(m_delimiter);
      }
    }

    method Close()
      modifies m_file
      ensures !m_file.isOpen
    {
      m_file.Close();
    }
  }
}
