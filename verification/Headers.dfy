/** Text headers of four labelled lines, as Packet and the client's Notification read them with `sscanf`. */
module Headers {
  import opened Decimal
  import opened InputStream
  import opened StringUtils

  const BLANK_LINE := "\n\n"

  /** A literal of a `sscanf` format and the conversion after it. */
  function ReadLabelled<T>(key: string, item: string -> Read<T>, s: string): Read<T> {
    if key <= s then item(s[|key|..]) else Failed
  }

  /** The same after a newline in the format, which matches any white space. */
  function ReadNext<T>(key: string, item: string -> Read<T>, s: string): Read<T> {
    ReadLabelled(key, item, SkipSpace(s))
  }

  predicate IsLabel(key: string) {
    key != "" && !IsSpace(key[0])
  }

  lemma LabelledBack<T>(key: string, item: string -> Read<T>, text: string, rest: string, x: T)
    requires item(text + rest) == Got(x, rest)
    ensures ReadLabelled(key, item, key + text + rest) == Got(x, rest)
  {
    assert (key + text + rest)[|key|..] == text + rest;
  }

  lemma NextBack<T>(key: string, item: string -> Read<T>, text: string, rest: string, x: T)
    requires IsLabel(key) && item(text + rest) == Got(x, rest)
    ensures ReadNext(key, item, "\n" + (key + text + rest)) == Got(x, rest)
  {
    var s := key + text + rest;
    assert ("\n" + s)[1..] == s;
    assert s[0] == key[0];
    assert SkipSpace("\n" + s) == s;
    LabelledBack(key, item, text, rest, x);
  }

  // ----- finding the end of the header -----

  /** Text without an empty line in it, or one begun at either end. */
  predicate Compact(s: string) {
    && s != "" && s[0] != '\n' && s[|s| - 1] != '\n'
    && forall j :: 0 <= j < |s| - 1 ==> s[j] != '\n' || s[j + 1] != '\n'
  }

  lemma CompactLine(s: string)
    requires s != "" && '\n' !in s
    ensures Compact(s)
  {
  }

  lemma CompactLines(a: string, b: string)
    requires Compact(a) && Compact(b)
    ensures Compact(a + "\n" + b)
  {
    var s := a + "\n" + b;
    forall j | 0 <= j < |s| - 1 ensures s[j] != '\n' || s[j + 1] != '\n' {
      if j < |a| - 1 {
        assert s[j] == a[j] && s[j + 1] == a[j + 1];
      } else if j == |a| - 1 {
        assert s[j] == a[j];
      } else if j == |a| {
        assert s[j + 1] == b[0];
      } else {
        assert s[j] == b[j - |a| - 1] && s[j + 1] == b[j - |a|];
      }
    }
    assert s[0] == a[0] && s[|s| - 1] == b[|b| - 1];
  }

  /** The first blank line ends a compact header, whatever follows it. */
  lemma HeaderEnds(header: string, rest: string)
    requires Compact(header)
    ensures SplitFirst(header + BLANK_LINE + rest, BLANK_LINE) == (header, rest)
  {
    var s := header + BLANK_LINE + rest;
    forall j | 0 <= j < |header| ensures !OccursAt(s, BLANK_LINE, j) {
      assert s[j] == header[j];
      if j + 1 < |header| {
        assert s[j + 1] == header[j + 1];
      }
      assert j + 2 <= |s| ==> s[j..j + 2][0] == s[j] && s[j..j + 2][1] == s[j + 1];
    }
    SplitFirstAt(header, BLANK_LINE, rest);
  }
}
