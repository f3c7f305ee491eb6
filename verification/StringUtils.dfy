/** The string helpers of src/lib/utils/string.cpp: searching, splitting and joining. */
module StringUtils {

  /** What `std::string::find` returns when there is no match. */
  const NPOS: int := -1

  predicate OccursAt(s: string, d: string, i: int) {
    0 <= i && i + |d| <= |s| && s[i..i + |d|] == d
  }

  /** The first occurrence of `d` in `s` at or after position `i`. */
  function FindFrom(s: string, d: string, i: nat): (r: int)
    requires i <= |s|
    ensures r == NPOS || (i <= r && OccursAt(s, d, r))
    ensures forall j :: i <= j && (r == NPOS || j < r) ==> !OccursAt(s, d, j)
    decreases |s| - i
  {
    if OccursAt(s, d, i) then i
    else if i == |s| then NPOS
    else FindFrom(s, d, i + 1)
  }

  /** `std::string::find(d)`. */
  function Find(s: string, d: string): (r: int)
    ensures r == NPOS || OccursAt(s, d, r)
    ensures forall j :: r == NPOS || j < r ==> !OccursAt(s, d, j)
  {
    FindFrom(s, d, 0)
  }

  /**
   * The two parts made by `splitFirst`.  Without a match the source computes `npos + |d|`, which
   * wraps around to `|d| - 1`, so the second part is then the text without its first `|d| - 1`
   * characters.
   */
  function SplitFirst(s: string, d: string): (string, string) {
    var p := Find(s, d);
    if p != NPOS then (s[..p], s[p + |d|..])
    else
      assert !OccursAt(s, d, 0);
      (s, if |d| - 1 <= |s| then s[|d| - 1..] else "")
  }

  /** Splitting at the first match loses nothing, and the first part holds no earlier match. */
  lemma SplitFirstAt(a: string, d: string, b: string)
    requires forall j :: 0 <= j < |a| ==> !OccursAt(a + d + b, d, j)
    ensures SplitFirst(a + d + b, d) == (a, b)
  {
    var s := a + d + b;
    assert OccursAt(s, d, |a|);
    assert Find(s, d) == |a|;
    assert s[..|a|] == a && s[|a| + |d|..] == b;
  }

  /** As above, for a one-character delimiter that the first part does not contain. */
  lemma SplitFirstAtChar(a: string, c: char, b: string)
    requires c !in a
    ensures SplitFirst(a + [c] + b, [c]) == (a, b)
  {
    var s := a + [c] + b;
    forall j | 0 <= j < |a| ensures !OccursAt(s, [c], j) {
      assert s[j] == a[j];
      assert s[j..j + 1][0] == a[j];
    }
    SplitFirstAt(a, [c], b);
  }

  lemma NoMatch(s: string, c: char)
    requires c !in s
    ensures Find(s, [c]) == NPOS
  {
    forall j | 0 <= j < |s| ensures !OccursAt(s, [c], j) {
      assert s[j..j + 1][0] == s[j];
    }
  }

  /** The parts between the successive (leftmost, non-overlapping) matches of `d`. */
  function Parts(s: string, d: string): (parts: seq<string>)
    requires d != ""
    ensures parts != []
  {
    var p := Find(s, d);
    if p == NPOS then [s] else [s[..p]] + Parts(s[p + |d|..], d)
  }

  /** `split`: an empty delimiter would make the source loop for ever. */
  method Split(s: string, d: string) returns (parts: seq<string>)
    requires d != ""
    ensures parts == Parts(s, d)
  {
    parts := [];
    var copy := s;
    var pos := Find(copy, d);
    while pos != NPOS
      invariant pos == Find(copy, d)
      invariant Parts(s, d) == parts + Parts(copy, d)
      decreases |copy|
    {
      var first, rest := copy[..pos], copy[pos + |d|..];
      assert Parts(copy, d) == [first] + Parts(rest, d);
      parts := parts + [first];
      copy := rest;
      pos := Find(copy, d);
    }
    parts := parts + [copy];
  }

  function Joined(parts: seq<string>, d: string): string {
    if |parts| == 0 then ""
    else if |parts| == 1 then parts[0]
    else parts[0] + d + Joined(parts[1..], d)
  }

  lemma {:induction false} JoinedSnoc(parts: seq<string>, d: string, last: string)
    requires parts != []
    ensures Joined(parts + [last], d) == Joined(parts, d) + d + last
  {
    var all := parts + [last];
    assert all[0] == parts[0];
    if |parts| == 1 {
      assert all[1..] == [last];
    } else {
      assert all[1..] == parts[1..] + [last];
      JoinedSnoc(parts[1..], d, last);
    }
  }

  lemma {:induction false} JoinedClean(parts: seq<string>, d: string, c: char)
    requires c !in d && forall k :: 0 <= k < |parts| ==> c !in parts[k]
    ensures c !in Joined(parts, d)
  {
    if |parts| > 1 {
      JoinedClean(parts[1..], d, c);
    }
  }

  lemma {:induction false} JoinedNotEmpty(parts: seq<string>, d: string)
    requires parts != [] && parts[0] != ""
    ensures Joined(parts, d) != ""
  {
  }

  /** `joinStringVector`. */
  method JoinStringVector(vec: seq<string>, d: string) returns (r: string)
    ensures r == Joined(vec, d)
  {
    if |vec| < 1 {
      return "";
    }
    r := vec[0];
    var i := 1;
    while i < |vec|
      invariant 1 <= i <= |vec|
      invariant r == Joined(vec[..i], d)
    {
      JoinedSnoc(vec[..i], d, vec[i]);
      assert vec[..i + 1] == vec[..i] + [vec[i]];
      r := r + (d + vec[i]);
      i := i + 1;
    }
    assert vec[..i] == vec;
  }

  /** `joinStringList`: the same text, built with a flag for the first element. */
  method JoinStringList(list: seq<string>, d: string) returns (r: string)
    ensures r == Joined(list, d)
  {
    r := "";
    var first := true;
    for i := 0 to |list|
      invariant first <==> i == 0
      invariant r == Joined(list[..i], d)
    {
      assert list[..i + 1] == list[..i] + [list[i]];
      if first {
        r := r + list[i];
        first := false;
      } else {
        JoinedSnoc(list[..i], d, list[i]);
        r := r + (d + list[i]);
      }
    }
    assert list[..|list|] == list;
  }

  lemma JoinedCons(first: string, rest: seq<string>, d: string)
    requires rest != []
    ensures Joined([first] + rest, d) == first + d + Joined(rest, d)
  {
    assert ([first] + rest)[1..] == rest;
  }

  /** Splitting and joining with the same delimiter gives the text back, whatever the delimiter. */
  lemma {:induction false} JoinUndoesSplit(s: string, d: string)
    requires d != ""
    ensures Joined(Parts(s, d), d) == s
    decreases |s|
  {
    var p := Find(s, d);
    if p != NPOS {
      var rest := s[p + |d|..];
      JoinUndoesSplit(rest, d);
      JoinedCons(s[..p], Parts(rest, d), d);
      assert s == s[..p] + d + rest;
    }
  }

  /** Joining parts that do not contain the delimiter character and splitting gives them back. */
  lemma {:induction false} SplitUndoesJoin(parts: seq<string>, c: char)
    requires parts != []
    requires forall k :: 0 <= k < |parts| ==> c !in parts[k]
    ensures Parts(Joined(parts, [c]), [c]) == parts
  {
    var s := Joined(parts, [c]);
    if |parts| == 1 {
      NoMatch(s, c);
    } else {
      SplitUndoesJoin(parts[1..], c);
      var rest := Joined(parts[1..], [c]);
      assert s == parts[0] + [c] + rest;
      SplitFirstAtChar(parts[0], c, rest);
      assert OccursAt(s, [c], |parts[0]|);
      assert Find(s, [c]) != NPOS;
      assert s[Find(s, [c]) + 1..] == rest;
    }
  }

  function Concat(parts: seq<string>): string {
    if parts == [] then "" else parts[0] + Concat(parts[1..])
  }

  lemma {:induction false} ConcatSnoc(parts: seq<string>, last: string)
    ensures Concat(parts + [last]) == Concat(parts) + last
  {
    var all := parts + [last];
    if parts == [] {
      assert all[1..] == [];
    } else {
      assert all[1..] == parts[1..] + [last];
      ConcatSnoc(parts[1..], last);
    }
  }

  /** Text that grew part by part behind `before`. */
  function Grown(before: string, parts: seq<string>): string {
    if parts == [] then before else Grown(before, parts[..|parts| - 1]) + parts[|parts| - 1]
  }

  lemma {:induction false} GrownIs(before: string, parts: seq<string>)
    ensures Grown(before, parts) == before + Concat(parts)
  {
    if parts != [] {
      var front, last := parts[..|parts| - 1], parts[|parts| - 1];
      GrownIs(before, front);
      ConcatSnoc(front, last);
      assert front + [last] == parts;
      assert before + (Concat(front) + last) == before + Concat(front) + last;
    }
  }

  lemma GrownSnoc(before: string, parts: seq<string>, last: string)
    ensures Grown(before, parts + [last]) == Grown(before, parts) + last
  {
    assert (parts + [last])[..|parts|] == parts;
  }

  function Mapped<T>(items: seq<T>, field: T -> string): (fields: seq<string>)
    ensures |fields| == |items|
  {
    seq(|items|, i requires 0 <= i < |items| => field(items[i]))
  }

  /** A loop that appends one field for each item. */
  method AppendEach<T>(start: string, items: seq<T>, field: T -> string) returns (s: string)
    ensures s == start + Concat(Mapped(items, field))
  {
    s := start;
    for i := 0 to |items|
      invariant s == start + Concat(Mapped(items[..i], field))
    {
      assert Mapped(items[..i + 1], field) == Mapped(items[..i], field) + [field(items[i])];
      ConcatSnoc(Mapped(items[..i], field), field(items[i]));
      s := s + field(items[i]);
    }
    assert items[..|items|] == items;
  }

  /** The same with a separator in front of every field but the first. */
  method AppendSeparated<T>(start: string, items: seq<T>, field: T -> string, d: string) returns (s: string)
    ensures s == start + Joined(Mapped(items, field), d)
  {
    s := start;
    var first := true;
    for i := 0 to |items|
      invariant first <==> i == 0
      invariant s == start + Joined(Mapped(items[..i], field), d)
    {
      assert Mapped(items[..i + 1], field) == Mapped(items[..i], field) + [field(items[i])];
      if first {
        s := s + field(items[i]);
        first := false;
      } else {
        JoinedSnoc(Mapped(items[..i], field), d, field(items[i]));
        s := s + (d + field(items[i]));
      }
    }
    assert items[..|items|] == items;
  }

  /** Text in which every line, the last one too, ends with the character `c`. */
  function Terminated(lines: seq<string>, c: char): string {
    if lines == [] then "" else lines[0] + [c] + Terminated(lines[1..], c)
  }

  lemma {:induction false} TerminatedSnoc(lines: seq<string>, c: char, last: string)
    ensures Terminated(lines + [last], c) == Terminated(lines, c) + last + [c]
  {
    var all := lines + [last];
    if lines == [] {
      assert all[1..] == [];
    } else {
      assert all[1..] == lines[1..] + [last];
      TerminatedSnoc(lines[1..], c, last);
    }
  }

  lemma {:induction false} TerminatedClean(lines: seq<string>, c: char, x: char)
    requires x != c && forall k :: 0 <= k < |lines| ==> x !in lines[k]
    ensures x !in Terminated(lines, c)
  {
    if lines != [] {
      TerminatedClean(lines[1..], c, x);
    }
  }

  /** Splitting terminated lines yields the lines and one empty part at the end. */
  lemma {:induction false} SplitTerminated(lines: seq<string>, c: char)
    requires forall k :: 0 <= k < |lines| ==> c !in lines[k]
    ensures Parts(Terminated(lines, c), [c]) == lines + [""]
  {
    var all := lines + [""];
    TerminatedIsJoined(lines, c);
    SplitUndoesJoin(all, c);
  }

  lemma {:induction false} TerminatedIsJoined(lines: seq<string>, c: char)
    ensures Terminated(lines, c) == Joined(lines + [""], [c])
  {
    if lines != [] {
      TerminatedIsJoined(lines[1..], c);
      assert (lines + [""])[1..] == lines[1..] + [""];
    }
  }

  /** What is left of a text passed through a C string: everything before the first NUL. */
  function CStr(s: string): string {
    if s == "" || s[0] == '\0' then "" else [s[0]] + CStr(s[1..])
  }

  lemma {:induction false} CStrSame(s: string)
    requires '\0' !in s
    ensures CStr(s) == s
  {
    if s != "" {
      CStrSame(s[1..]);
      assert s == [s[0]] + s[1..];
    }
  }

  lemma {:induction false} CStrIsPrefix(s: string)
    ensures CStr(s) <= s && '\0' !in CStr(s)
    ensures CStr(s) == s || s[|CStr(s)|] == '\0'
  {
    if s != "" && s[0] != '\0' {
      CStrIsPrefix(s[1..]);
      assert s == [s[0]] + s[1..];
    }
  }
}
