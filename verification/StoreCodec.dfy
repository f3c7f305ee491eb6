/**
 * NotificationManager::serialize and deserialize as functions, and the whole-state round trip:
 * whatever order the two unordered maps are printed in, the replicated state comes back.
 */
module StoreCodec {
  import opened Integers
  import opened StringUtils
  import opened Decimal
  import opened InputStream
  import opened NotificationStore
  import opened NotificationCodec

  const SEPARATOR := "\n&\n"

  /** One line for each key of a map, in the given order. */
  function Lines<T>(line: (string, T) -> string, m: map<string, T>, order: seq<string>): (lines: seq<string>)
    requires forall u :: u in order ==> u in m
    ensures |lines| == |order|
  {
    seq(|order|, i requires 0 <= i < |order| => assert order[i] in order; line(order[i], m[order[i]]))
  }

  function InboxLine(user: string, q: Inbox): string {
    QueueLine(user, q.pending)
  }

  /** An order in which the keys of an unordered map may be visited. */
  ghost predicate Enumerates(order: seq<string>, keys: set<string>) {
    && (forall u :: u in order <==> u in keys)
    && forall i, j :: 0 <= i < j < |order| ==> order[i] != order[j]
  }

  lemma EnumeratesMore(order: seq<string>, keys: set<string>, todo: set<string>, u: string)
    requires Enumerates(order, keys - todo) && todo <= keys && u in todo
    ensures Enumerates(order + [u], keys - (todo - {u}))
    ensures u !in order && forall v :: v in order ==> v in keys
  {
  }

  function PrintStore(st: Store, order1: seq<string>, order2: seq<string>): string
    requires Enumerates(order1, st.notifications.Keys) && Enumerates(order2, st.queues.Keys)
  {
    IntToString(st.nextId) + "\n" + PrintBody(st, order1, order2)
  }

  function PrintBody(st: Store, order1: seq<string>, order2: seq<string>): string
    requires Enumerates(order1, st.notifications.Keys) && Enumerates(order2, st.queues.Keys)
  {
    Terminated(Lines(NotificationsLine, st.notifications, order1), '\n') + SEPARATOR
    + Terminated(Lines(InboxLine, st.queues, order2), '\n')
  }

  /** `serialize` may print this text for the store. */
  ghost predicate Prints(st: Store, text: string) {
    exists order1, order2 ::
      && Enumerates(order1, st.notifications.Keys) && Enumerates(order2, st.queues.Keys)
      && text == PrintStore(st, order1, order2)
  }

  /** Reading line after line into `start`; a line that cannot be read spoils everything after it. */
  function FoldLines<M>(add: (M, string) -> Read<M>, start: M, lines: seq<string>): Read<M> {
    if lines == [] then Got(start, "")
    else
      var (m, _) :- FoldLines(add, start, lines[..|lines| - 1]);
      add(m, lines[|lines| - 1])
  }

  lemma {:induction false} FoldFails<M>(add: (M, string) -> Read<M>, start: M, lines: seq<string>, i: nat)
    requires i <= |lines| && FoldLines(add, start, lines[..i]).Failed?
    ensures FoldLines(add, start, lines).Failed?
    decreases |lines|
  {
    if i < |lines| {
      assert lines[..|lines| - 1][..i] == lines[..i];
      FoldFails(add, start, lines[..|lines| - 1], i);
    } else {
      assert lines[..i] == lines;
    }
  }

  /** Empty lines are skipped, and a second line for a user is ignored. */
  function AddEntry<T>(parse: string -> Read<(string, T)>, m: map<string, T>, line: string): Read<map<string, T>> {
    if line == "" then Got(m, "")
    else
      var (entry, _) :- parse(line);
      Got(Register(m, entry.0, entry.1), "")
  }

  function ParseLines<T>(parse: string -> Read<(string, T)>, lines: seq<string>): Read<map<string, T>> {
    FoldLines((m: map<string, T>, line: string) => AddEntry(parse, m, line), map[], lines)
  }

  function ParseInboxLine(line: string): Read<(string, Inbox)> {
    var (entry, s) :- ParseQueueLine(line);
    Got((entry.0, Inbox(map[], entry.1)), s)
  }

  function ParseBody(nextId: nat, body: string): Read<Store> {
    var notificationsAndQueues := SplitFirst(body, SEPARATOR);
    var (notifications, _) :- ParseLines(ParseNotificationsLine, Parts(notificationsAndQueues.0, "\n"));
    var (queues, _) :- ParseLines(ParseInboxLine, Parts(notificationsAndQueues.1, "\n"));
    Got(Store(nextId, notifications, queues), "")
  }

  /** The id is read as an `int` and stored as an `unsigned int`. */
  function ParseStore(raw: string): Read<Store> {
    var idAndRest := SplitFirst(raw, "\n");
    var (nextId, _) :- ReadInt(idAndRest.0);
    ParseBody(nextId % TWO_32, idAndRest.1)
  }

  /** The stores the format can carry: names are tokens, messages have no newline or NUL. */
  predicate SafeStore(st: Store) {
    && st.nextId <= INT_MAX
    && (forall u :: u in st.notifications ==> SafeName(u) && SafeList(st.notifications[u]))
    && (forall u :: u in st.queues ==> SafeName(u) && SafeQueue(st.queues[u].pending))
  }

  // ----- the lines -----

  function Pick<T>(m: map<string, T>, order: seq<string>): map<string, T>
    requires forall u :: u in order ==> u in m
  {
    map u | u in order :: m[u]
  }

  lemma PickSnoc<T>(m: map<string, T>, order: seq<string>, u: string)
    requires u in m && (forall v :: v in order ==> v in m) && u !in order
    ensures Register(Pick(m, order), u, m[u]) == Pick(m, order + [u])
  {
  }

  lemma PickAll<T>(m: map<string, T>, order: seq<string>)
    requires Enumerates(order, m.Keys)
    ensures Pick(m, order) == m
  {
  }

  /** If every line is read back as its entry, the lines are read back as the map. */
  lemma {:induction false} LinesBack<T, U>(line: (string, T) -> string, parse: string -> Read<(string, U)>,
                                           m: map<string, T>, expected: map<string, U>, order: seq<string>)
    requires forall u :: u in order ==> u in m && u in expected
    requires forall u :: u in order ==> LineBack(line, parse, u, m[u], expected[u])
    requires forall i, j :: 0 <= i < j < |order| ==> order[i] != order[j]
    ensures ParseLines(parse, Lines(line, m, order)) == Got(Pick(expected, order), "")
  {
    var lines := Lines(line, m, order);
    if order != [] {
      var front, u := order[..|order| - 1], order[|order| - 1];
      LinesBack(line, parse, m, expected, front);
      assert lines[..|lines| - 1] == Lines(line, m, front);
      assert LineBack(line, parse, u, m[u], expected[u]);
      PickSnoc(expected, front, u);
      assert front + [u] == order;
    }
  }

  predicate LineBack<T, U(==)>(line: (string, T) -> string, parse: string -> Read<(string, U)>, u: string, x: T, y: U) {
    && line(u, x) != ""
    && parse(line(u, x)).Got? && parse(line(u, x)).value == (u, y)
  }

  lemma NotificationLinesBack(ns: map<string, seq<Notification>>, order: seq<string>)
    requires Enumerates(order, ns.Keys)
    requires forall u :: u in ns ==> SafeName(u) && SafeList(ns[u])
    ensures ParseLines(ParseNotificationsLine, Lines(NotificationsLine, ns, order)) == Got(ns, "")
    ensures forall i :: 0 <= i < |order| ==>
      Printable(Lines(NotificationsLine, ns, order)[i]) && |Lines(NotificationsLine, ns, order)[i]| >= 2
  {
    forall i | 0 <= i < |order|
      ensures Printable(Lines(NotificationsLine, ns, order)[i]) && |Lines(NotificationsLine, ns, order)[i]| >= 2
    {
      assert order[i] in order;
      NotificationsLineBack(order[i], ns[order[i]]);
    }
    forall u | u in order ensures LineBack(NotificationsLine, ParseNotificationsLine, u, ns[u], ns[u]) {
      NotificationsLineBack(u, ns[u]);
    }
    LinesBack(NotificationsLine, ParseNotificationsLine, ns, ns, order);
    PickAll(ns, order);
  }

  function OfflineAll(qs: map<string, Inbox>): map<string, Inbox> {
    map u | u in qs :: Offline(qs[u])
  }

  lemma InboxLineBack(u: string, q: Inbox)
    requires SafeName(u) && SafeQueue(q.pending)
    ensures LineBack(InboxLine, ParseInboxLine, u, q, Offline(q)) && Printable(InboxLine(u, q))
  {
    QueueLineBack(u, q.pending);
  }

  lemma InboxLinesPrintable(qs: map<string, Inbox>, order: seq<string>)
    requires Enumerates(order, qs.Keys)
    requires forall u :: u in qs ==> SafeName(u) && SafeQueue(qs[u].pending)
    ensures forall i :: 0 <= i < |order| ==> Printable(Lines(InboxLine, qs, order)[i])
  {
    forall i | 0 <= i < |order| ensures Printable(Lines(InboxLine, qs, order)[i]) {
      assert order[i] in order;
      InboxLineBack(order[i], qs[order[i]]);
    }
  }

  lemma InboxLinesBack(qs: map<string, Inbox>, order: seq<string>)
    requires Enumerates(order, qs.Keys)
    requires forall u :: u in qs ==> SafeName(u) && SafeQueue(qs[u].pending)
    ensures ParseLines(ParseInboxLine, Lines(InboxLine, qs, order)) == Got(OfflineAll(qs), "")
  {
    var expected := OfflineAll(qs);
    forall u | u in order ensures LineBack(InboxLine, ParseInboxLine, u, qs[u], expected[u]) {
      InboxLineBack(u, qs[u]);
    }
    LinesBack(InboxLine, ParseInboxLine, qs, expected, order);
    PickAll(expected, order);
  }

  lemma LinesSnoc<T>(line: (string, T) -> string, m: map<string, T>, order: seq<string>, u: string)
    requires u in m && forall v :: v in order ==> v in m
    ensures Terminated(Lines(line, m, order + [u]), '\n') ==
      Terminated(Lines(line, m, order), '\n') + line(u, m[u]) + "\n"
  {
    assert Lines(line, m, order + [u]) == Lines(line, m, order) + [line(u, m[u])];
    TerminatedSnoc(Lines(line, m, order), '\n', line(u, m[u]));
  }

  lemma ParseLinesStep<T>(parse: string -> Read<(string, T)>, lines: seq<string>, i: nat, m: map<string, T>)
    requires i < |lines| && ParseLines(parse, lines[..i]) == Got(m, "")
    ensures lines[i] == "" ==> ParseLines(parse, lines[..i + 1]) == Got(m, "")
    ensures lines[i] != "" && parse(lines[i]).Got? ==>
      ParseLines(parse, lines[..i + 1]) == Got(Register(m, parse(lines[i]).value.0, parse(lines[i]).value.1), "")
    ensures lines[i] != "" && parse(lines[i]).Failed? ==> ParseLines(parse, lines).Failed?
  {
    assert lines[..i + 1][..i] == lines[..i];
    if lines[i] != "" && parse(lines[i]).Failed? {
      FoldFails((m: map<string, T>, line: string) => AddEntry(parse, m, line), map[], lines, i + 1);
    }
  }

  // ----- the separator -----

  lemma SeparatorChars(s: string, j: int)
    ensures OccursAt(s, SEPARATOR, j) ==> s[j] == '\n' && s[j + 1] == '&' && s[j + 2] == '\n'
  {
    if OccursAt(s, SEPARATOR, j) {
      var found := s[j..j + 3];
      assert found[0] == s[j] && found[1] == s[j + 1] && found[2] == s[j + 2];
    }
  }

  lemma OccursShifted(a: string, b: string, d: string, j: int)
    requires j >= |a|
    ensures OccursAt(a + b, d, j) <==> OccursAt(b, d, j - |a|)
  {
    if j + |d| <= |a| + |b| {
      assert (a + b)[j..j + |d|] == b[j - |a|..j - |a| + |d|];
    }
  }

  /** A line is never just "&", so the separator is first found where it was put. */
  lemma {:induction false} SeparatorOnlyOnce(lines: seq<string>, tail: string, j: int)
    requires forall i :: 0 <= i < |lines| ==> '\n' !in lines[i] && |lines[i]| >= 2
    requires tail != "" && tail[0] == '\n'
    requires 0 <= j < |Terminated(lines, '\n')|
    ensures !OccursAt(Terminated(lines, '\n') + tail, SEPARATOR, j)
  {
    var first := lines[0] + ['\n'];
    var rest := Terminated(lines[1..], '\n') + tail;
    var text := Terminated(lines, '\n') + tail;
    assert text == first + rest;
    SeparatorChars(text, j);
    if j < |lines[0]| {
      assert text[j] == lines[0][j];
    } else if j == |lines[0]| {
      assert text[j + 1] == rest[0];
      if |lines| > 1 {
        assert text[j + 2] == rest[1] == lines[1][1];
      }
    } else {
      SeparatorOnlyOnce(lines[1..], tail, j - |first|);
      OccursShifted(first, rest, SEPARATOR, j);
    }
  }

  lemma SplitAtSeparator(lines: seq<string>, rest: string)
    requires forall i :: 0 <= i < |lines| ==> '\n' !in lines[i] && |lines[i]| >= 2
    ensures SplitFirst(Terminated(lines, '\n') + SEPARATOR + rest, SEPARATOR) == (Terminated(lines, '\n'), rest)
  {
    var a := Terminated(lines, '\n');
    forall j | 0 <= j < |a| ensures !OccursAt(a + SEPARATOR + rest, SEPARATOR, j) {
      SeparatorOnlyOnce(lines, SEPARATOR + rest, j);
      assert a + (SEPARATOR + rest) == a + SEPARATOR + rest;
    }
    SplitFirstAt(a, SEPARATOR, rest);
  }

  // ----- the whole store -----

  lemma EmptyLastLine<T>(parse: string -> Read<(string, T)>, lines: seq<string>)
    requires ParseLines(parse, lines).Got? && ParseLines(parse, lines).rest == ""
    ensures ParseLines(parse, lines + [""]) == ParseLines(parse, lines)
  {
    assert (lines + [""])[..|lines|] == lines;
  }

  lemma HeaderBack(nextId: nat, rest: string)
    requires nextId <= INT_MAX
    ensures SplitFirst(IntToString(nextId) + "\n" + rest, "\n").1 == rest
    ensures ReadInt(SplitFirst(IntToString(nextId) + "\n" + rest, "\n").0) == Got(nextId, "")
  {
    IntStringShape(nextId);
    SplitFirstAtChar(IntToString(nextId), '\n', rest);
    assert IntToString(nextId) + "" == IntToString(nextId);
    ReadIntBack(nextId, "");
  }

  lemma NotificationSectionBack(ns: map<string, seq<Notification>>, order: seq<string>, rest: string)
    requires Enumerates(order, ns.Keys)
    requires forall u :: u in ns ==> SafeName(u) && SafeList(ns[u])
    ensures
      var section := Terminated(Lines(NotificationsLine, ns, order), '\n');
      && SplitFirst(section + SEPARATOR + rest, SEPARATOR) == (section, rest)
      && ParseLines(ParseNotificationsLine, Parts(section, "\n")) == Got(ns, "")
  {
    var lines := Lines(NotificationsLine, ns, order);
    NotificationLinesBack(ns, order);
    SplitAtSeparator(lines, rest);
    SplitTerminated(lines, '\n');
    EmptyLastLine(ParseNotificationsLine, lines);
  }

  lemma QueueSectionBack(qs: map<string, Inbox>, order: seq<string>)
    requires Enumerates(order, qs.Keys)
    requires forall u :: u in qs ==> SafeName(u) && SafeQueue(qs[u].pending)
    ensures ParseLines(ParseInboxLine, Parts(Terminated(Lines(InboxLine, qs, order), '\n'), "\n")) == Got(OfflineAll(qs), "")
  {
    var lines := Lines(InboxLine, qs, order);
    InboxLinesBack(qs, order);
    InboxLinesPrintable(qs, order);
    SplitTerminated(lines, '\n');
    EmptyLastLine(ParseInboxLine, lines);
  }

  lemma BodyBack(st: Store, order1: seq<string>, order2: seq<string>)
    requires SafeStore(st)
    requires Enumerates(order1, st.notifications.Keys) && Enumerates(order2, st.queues.Keys)
    ensures ParseBody(st.nextId, PrintBody(st, order1, order2)) == Got(Replicated(st), "")
  {
    var section2 := Terminated(Lines(InboxLine, st.queues, order2), '\n');
    NotificationSectionBack(st.notifications, order1, section2);
    QueueSectionBack(st.queues, order2);
    assert Replicated(st) == Store(st.nextId, st.notifications, OfflineAll(st.queues));
  }

  /** What a backup reads is what the leader replicates, for every order of the two maps. */
  lemma StoreBack(st: Store, order1: seq<string>, order2: seq<string>)
    requires SafeStore(st)
    requires Enumerates(order1, st.notifications.Keys) && Enumerates(order2, st.queues.Keys)
    ensures ParseStore(PrintStore(st, order1, order2)) == Got(Replicated(st), "")
  {
    HeaderBack(st.nextId, PrintBody(st, order1, order2));
    BodyBack(st, order1, order2);
  }

  /** The text has no NUL, so a C string carries all of it. */
  lemma StoreTextClean(st: Store, order1: seq<string>, order2: seq<string>)
    requires SafeStore(st)
    requires Enumerates(order1, st.notifications.Keys) && Enumerates(order2, st.queues.Keys)
    ensures '\0' !in PrintStore(st, order1, order2)
  {
    IntStringShape(st.nextId);
    NotificationLinesBack(st.notifications, order1);
    InboxLinesPrintable(st.queues, order2);
    TerminatedClean(Lines(NotificationsLine, st.notifications, order1), '\n', '\0');
    TerminatedClean(Lines(InboxLine, st.queues, order2), '\n', '\0');
  }
}
