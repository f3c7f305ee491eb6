/**
 * Formatted input as `std::istringstream`, `std::stoi`, `atoi` and `sscanf` do it.  A stream is
 * represented by the text that has not been read yet.  A failed read is `Failed`: the source
 * reads on with indeterminate values after one, so nothing is promised from there.
 */
module InputStream {
  import opened Decimal

  datatype Read<+T> = Failed | Got(value: T, rest: string) {
    predicate IsFailure() {
      Failed?
    }

    function PropagateFailure<U>(): Read<U>
      requires Failed?
    {
      Failed
    }

    function Extract(): (T, string)
      requires Got?
    {
      (value, rest)
    }
  }

  predicate IsSpace(c: char) {
    c == ' ' || 0x9 <= c as int <= 0xD
  }

  predicate NoSpace(s: string) {
    forall k :: 0 <= k < |s| ==> !IsSpace(s[k])
  }

  /** A name that survives being printed between blanks and read with `>>`. */
  predicate IsToken(s: string) {
    s != "" && NoSpace(s)
  }

  function SkipSpace(s: string): string {
    if s != "" && IsSpace(s[0]) then SkipSpace(s[1..]) else s
  }

  /** The length of the longest prefix without white space. */
  function TokenLength(s: string): (n: nat)
    ensures n <= |s|
  {
    if s == "" || IsSpace(s[0]) then 0 else 1 + TokenLength(s[1..])
  }

  /** The length of the longest prefix made of digits. */
  function DigitLength(s: string): (n: nat)
    ensures n <= |s|
  {
    if s == "" || !IsDigit(s[0]) then 0 else 1 + DigitLength(s[1..])
  }

  /** `stream >> aString`, and `%s`. */
  function ReadToken(s: string): Read<string> {
    var t := SkipSpace(s);
    var n := TokenLength(t);
    if n == 0 then Failed else Got(t[..n], t[n..])
  }

  /** An optional sign and at least one digit, after white space; the flag is true for '-'. */
  function ReadNumber(s: string): Read<(bool, nat)> {
    var t := SkipSpace(s);
    var signed := t != "" && (t[0] == '-' || t[0] == '+');
    var u := if signed then t[1..] else t;
    var n := DigitLength(u);
    if n == 0 then Failed else Got((signed && t[0] == '-', Value(u[..n])), u[n..])
  }

  const INT_MIN: int := -0x8000_0000
  const INT_MAX: int := 0x7FFF_FFFF
  const ULONG_MAX: int := 0xFFFF_FFFF_FFFF_FFFF

  predicate IsInt(n: int) {
    INT_MIN <= n <= INT_MAX
  }

  /** `stream >> anInt`, and `%d`: fails without digits or when the number is no `int`. */
  function ReadInt(s: string): Read<int> {
    var (number, rest) :- ReadNumber(s);
    var magnitude: int := number.1;
    var n := if number.0 then -magnitude else magnitude;
    if IsInt(n) then Got(n, rest) else Failed
  }

  /** `stream >> anUnsignedLong`, and `%lu`: a negative number is negated modulo 2^64. */
  function ReadULong(s: string): Read<nat> {
    var (number, rest) :- ReadNumber(s);
    if number.1 > ULONG_MAX then Failed
    else Got(if number.0 && number.1 > 0 then ULONG_MAX + 1 - number.1 else number.1, rest)
  }

  /** `stream.ignore(1)`. */
  function IgnoreOne(s: string): string {
    if s == "" then "" else s[1..]
  }

  /** `stream.read(buffer, n)`. */
  function ReadChars(s: string, n: int): Read<string> {
    if 0 <= n <= |s| then Got(s[..n], s[n..]) else Failed
  }

  /** `count` items one after the other; a negative count reads nothing. */
  function ReadMany<T>(item: string -> Read<T>, count: int, s: string): Read<seq<T>>
    decreases if count > 0 then count else 0
  {
    if count <= 0 then Got([], s)
    else
      var (x, s) :- item(s);
      var (xs, s) :- ReadMany(item, count - 1, s);
      Got([x] + xs, s)
  }

  /** The result of a read with some values already read in front. */
  function Behind<T>(done: seq<T>, r: Read<seq<T>>): Read<seq<T>> {
    if r.Failed? then Failed else Got(done + r.value, r.rest)
  }

  /** The loop `for (int i = 0; i < count; i++)` around reading one item. */
  method ReadInLoop<T>(item: string -> Read<T>, count: int, start: string) returns (r: Read<seq<T>>)
    ensures r == ReadMany(item, count, start)
  {
    var stream := start;
    var list := [];
    var i := 0;
    ghost var all := ReadMany(item, count, start);
    assert all.Got? ==> [] + all.value == all.value;
    while i < count
      invariant 0 <= i && (i <= count || i == 0)
      invariant all == Behind(list, ReadMany(item, count - i, stream))
    {
      var x := item(stream);
      if x.Failed? {
        return Failed;
      }
      ghost var later := ReadMany(item, count - i - 1, x.rest);
      assert later.Got? ==> list + ([x.value] + later.value) == list + [x.value] + later.value;
      stream := x.rest;
      list := list + [x.value];
      i := i + 1;
    }
    assert list + [] == list;
    r := Got(list, stream);
  }

  // ----- reading back what was printed -----

  lemma ReadManySame<T>(item: string -> Read<T>, count: nat, s: string, t: string)
    requires count > 0 && item(s) == item(t)
    ensures ReadMany(item, count, s) == ReadMany(item, count, t)
  {
  }

  lemma ReadManyStep<T>(item: string -> Read<T>, count: nat, s: string, x: T, rest: string, xs: seq<T>, left: string)
    requires item(s) == Got(x, rest) && ReadMany(item, count, rest) == Got(xs, left)
    ensures ReadMany(item, count + 1, s) == Got([x] + xs, left)
  {
  }

  lemma {:induction false} TokenLengthOf(token: string, rest: string)
    requires NoSpace(token)
    requires rest == "" || IsSpace(rest[0])
    ensures TokenLength(token + rest) == |token|
  {
    if token == "" {
      assert token + rest == rest;
    } else {
      assert (token + rest)[1..] == token[1..] + rest;
      TokenLengthOf(token[1..], rest);
    }
  }

  lemma ReadTokenBack(token: string, rest: string)
    requires IsToken(token)
    requires rest == "" || IsSpace(rest[0])
    ensures ReadToken(token + rest) == Got(token, rest)
  {
    TokenLengthOf(token, rest);
    assert (token + rest)[0] == token[0];
  }

  lemma {:induction false} DigitLengthOf(digits: string, rest: string)
    requires AllDigits(digits)
    requires rest == "" || !IsDigit(rest[0])
    ensures DigitLength(digits + rest) == |digits|
  {
    if digits == "" {
      assert digits + rest == rest;
    } else {
      assert (digits + rest)[1..] == digits[1..] + rest;
      DigitLengthOf(digits[1..], rest);
    }
  }

  lemma ReadDigitsBack(digits: string, rest: string)
    requires digits != "" && AllDigits(digits)
    requires rest == "" || !IsDigit(rest[0])
    ensures ReadNumber(digits + rest) == Got((false, Value(digits)), rest)
  {
    DigitLengthOf(digits, rest);
    var s := digits + rest;
    assert IsDigit(s[0]) by { assert s[0] == digits[0]; }
    assert SkipSpace(s) == s;
    assert s[..|digits|] == digits;
  }

  lemma ReadNumberBack(n: int, rest: string)
    requires rest == "" || !IsDigit(rest[0])
    ensures ReadNumber(IntToString(n) + rest) == Got((n < 0, if n < 0 then -n else n), rest)
  {
    var magnitude: nat := if n < 0 then -n else n;
    var digits := NatToString(magnitude);
    ValueOfNat(magnitude);
    if n < 0 {
      DigitLengthOf(digits, rest);
      var s := "-" + digits + rest;
      assert SkipSpace(s) == s;
      assert s[1..] == digits + rest;
      assert (digits + rest)[..|digits|] == digits;
      assert IntToString(n) + rest == s;
    } else {
      ReadDigitsBack(digits, rest);
    }
  }

  lemma ReadIntBack(n: int, rest: string)
    requires IsInt(n)
    requires rest == "" || !IsDigit(rest[0])
    ensures ReadInt(IntToString(n) + rest) == Got(n, rest)
  {
    ReadNumberBack(n, rest);
  }

  lemma ReadULongBack(n: nat, rest: string)
    requires n <= ULONG_MAX
    requires rest == "" || !IsDigit(rest[0])
    ensures ReadULong(IntToString(n) + rest) == Got(n, rest)
  {
    ReadNumberBack(n, rest);
  }

  /** A blank before a token or a number is skipped. */
  lemma LeadingSpace(c: char, s: string)
    requires IsSpace(c)
    ensures ReadToken([c] + s) == ReadToken(s)
    ensures ReadInt([c] + s) == ReadInt(s)
    ensures ReadULong([c] + s) == ReadULong(s)
  {
    assert ([c] + s)[1..] == s;
  }

  lemma ReadCharsBack(text: string, rest: string)
    ensures ReadChars(text + rest, |text|) == Got(text, rest)
  {
  }

  lemma IntStringShape(n: int)
    ensures IsToken(IntToString(n)) && '\n' !in IntToString(n) && '\0' !in IntToString(n)
    ensures ',' !in IntToString(n)
  {
    var magnitude: nat := if n < 0 then -n else n;
    var digits := NatToString(magnitude);
    var s := IntToString(n);
    forall k | 0 <= k < |s|
      ensures !IsSpace(s[k]) && s[k] != '\n' && s[k] != '\0' && s[k] != ','
    {
      if n < 0 {
        assert k == 0 || s[k] == digits[k - 1];
      }
    }
  }
}
