/**
 * The text the leader sends to its backups for the notification store, and how a backup reads it:
 * Notification::serializeAll, PendingNotification, NotificationQueue and NotificationManager.
 */
module NotificationCodec {
  import opened StringUtils
  import opened Decimal
  import opened InputStream
  import opened NotificationStore

  // ----- printed fields, each after a blank -----

  predicate Printable(s: string) {
    '\n' !in s && '\0' !in s
  }

  /** A user name that survives the trip. */
  predicate SafeName(s: string) {
    IsToken(s) && '\0' !in s
  }

  lemma SafeNamePrintable(s: string)
    requires SafeName(s)
    ensures Printable(s)
  {
  }

  lemma IntField(n: int, s: string)
    requires IsInt(n) && (s == "" || s[0] == ' ')
    ensures ReadInt([' '] + (IntToString(n) + s)) == Got(n, s)
  {
    LeadingSpace(' ', IntToString(n) + s);
    ReadIntBack(n, s);
  }

  lemma ULongField(n: nat, s: string)
    requires n <= ULONG_MAX && (s == "" || s[0] == ' ')
    ensures ReadULong([' '] + (IntToString(n) + s)) == Got(n, s)
  {
    LeadingSpace(' ', IntToString(n) + s);
    ReadULongBack(n, s);
  }

  lemma TokenField(token: string, s: string)
    requires IsToken(token) && (s == "" || s[0] == ' ')
    ensures ReadToken([' '] + (token + s)) == Got(token, s)
  {
    LeadingSpace(' ', token + s);
    ReadTokenBack(token, s);
  }

  // ----- a field with its length in front -----

  function Sized(text: string): string {
    IntToString(|text|) + (" " + text)
  }

  /** `>> length`, `ignore(1)`, `read(length)`; the buffer is then used as a C string. */
  function ReadSized(s: string): Read<string> {
    var (length, s) :- ReadInt(s);
    var (text, s) :- ReadChars(IgnoreOne(s), length);
    Got(CStr(text), s)
  }

  lemma SizedBack(text: string, rest: string)
    requires IsInt(|text|) && '\0' !in text
    ensures ReadSized(Sized(text) + rest) == Got(text, rest)
    ensures ReadSized([' '] + (Sized(text) + rest)) == Got(text, rest)
  {
    var s := " " + (text + rest);
    assert Sized(text) + rest == IntToString(|text|) + s;
    LeadingSpace(' ', Sized(text) + rest);
    ReadIntBack(|text|, s);
    assert IgnoreOne(s) == text + rest;
    ReadCharsBack(text, rest);
    CStrSame(text);
  }

  lemma SizedPrintable(text: string)
    requires Printable(text)
    ensures Printable(Sized(text)) && Sized(text) != ""
  {
    IntStringShape(|text|);
  }

  // ----- Notification::serializeAll and deserializeAll -----

  function PrintNotification(n: Notification): string {
    IntToString(n.id) + (" " + (IntToString(n.timestamp) + (" " + (n.username + (" "
      + (IntToString(n.pendingCount) + (" " + (IntToString(|n.message|) + (" " + CStr(n.message))))))))))
  }

  function ParseNotification(raw: string): Read<Notification> {
    var (id, s) :- ReadInt(raw);
    var (timestamp, s) :- ReadULong(s);
    var (username, s) :- ReadToken(s);
    var (pendingCount, s) :- ReadInt(s);
    var (message, s) :- ReadSized(s);
    Got(Notification(id, timestamp, username, pendingCount, message), s)
  }

  predicate SafeNotification(n: Notification) {
    && IsInt(n.id) && n.timestamp <= ULONG_MAX && SafeName(n.username) && IsInt(n.pendingCount)
    && Printable(n.message) && IsInt(|n.message|)
  }

  lemma NotificationBack(n: Notification)
    requires SafeNotification(n)
    ensures ParseNotification(PrintNotification(n)) == Got(n, "")
  {
    var s4 := [' '] + Sized(n.message);
    var s3 := [' '] + (IntToString(n.pendingCount) + s4);
    var s2 := [' '] + (n.username + s3);
    var s1 := [' '] + (IntToString(n.timestamp) + s2);
    ReadIntBack(n.id, s1);
    ULongField(n.timestamp, s2);
    TokenField(n.username, s3);
    IntField(n.pendingCount, s4);
    CStrSame(n.message);
    assert s4 == [' '] + (Sized(n.message) + "");
    SizedBack(n.message, "");
    assert ParseNotification(IntToString(n.id) + s1) == Got(n, "");
    assert PrintNotification(n) == IntToString(n.id) + s1;
  }

  lemma NotificationPrintable(n: Notification)
    requires SafeNotification(n)
    ensures Printable(PrintNotification(n))
  {
    IntStringShape(n.id);
    IntStringShape(n.timestamp);
    IntStringShape(n.pendingCount);
    IntStringShape(|n.message|);
    CStrSame(n.message);
    SafeNamePrintable(n.username);
  }

  // ----- PendingNotification -----

  function PrintPending(p: PendingNotification): string {
    p.sender + (" " + IntToString(p.notificationId))
  }

  function ParsePending(raw: string): Read<PendingNotification> {
    var (sender, s) :- ReadToken(raw);
    var (id, s) :- ReadInt(s);
    Got(PendingNotification(sender, id), s)
  }

  predicate SafePending(p: PendingNotification) {
    SafeName(p.sender) && IsInt(p.notificationId) && IsInt(|PrintPending(p)|)
  }

  lemma PendingBack(p: PendingNotification)
    requires SafePending(p)
    ensures ParsePending(PrintPending(p)) == Got(p, "") && Printable(PrintPending(p))
  {
    ReadTokenBack(p.sender, " " + IntToString(p.notificationId));
    LeadingSpace(' ', IntToString(p.notificationId));
    assert IntToString(p.notificationId) + "" == IntToString(p.notificationId);
    ReadIntBack(p.notificationId, "");
    IntStringShape(p.notificationId);
    SafeNamePrintable(p.sender);
  }

  // ----- NotificationQueue -----

  function PendingField(p: PendingNotification): string {
    " " + Sized(PrintPending(p))
  }

  function PrintPendings(ps: seq<PendingNotification>): string {
    Concat(Mapped(ps, PendingField))
  }

  lemma PendingsCons(ps: seq<PendingNotification>)
    requires ps != []
    ensures PrintPendings(ps) == [' '] + (Sized(PrintPending(ps[0])) + PrintPendings(ps[1..]))
  {
    assert Mapped(ps, PendingField)[1..] == Mapped(ps[1..], PendingField);
  }

  function PrintQueue(ps: seq<PendingNotification>): string {
    IntToString(|ps|) + PrintPendings(ps)
  }

  function PendingItem(s: string): Read<PendingNotification> {
    var (raw, s) :- ReadSized(s);
    var (p, _) :- ParsePending(raw);
    Got(p, s)
  }

  function ParseQueue(raw: string): Read<seq<PendingNotification>> {
    var (size, s) :- ReadInt(raw);
    ReadMany(PendingItem, size, s)
  }

  predicate SafeQueue(ps: seq<PendingNotification>) {
    && (forall i :: 0 <= i < |ps| ==> SafePending(ps[i]))
    && IsInt(|ps|) && IsInt(|PrintQueue(ps)|)
  }

  lemma PendingItemBack(p: PendingNotification, rest: string)
    requires SafePending(p)
    ensures PendingItem([' '] + (Sized(PrintPending(p)) + rest)) == Got(p, rest)
  {
    PendingBack(p);
    SizedBack(PrintPending(p), rest);
  }

  lemma {:induction false} PendingsBack(ps: seq<PendingNotification>)
    requires forall i :: 0 <= i < |ps| ==> SafePending(ps[i])
    ensures ReadMany(PendingItem, |ps|, PrintPendings(ps)) == Got(ps, "")
  {
    if ps != [] {
      PendingsBack(ps[1..]);
      PendingsCons(ps);
      PendingItemBack(ps[0], PrintPendings(ps[1..]));
      ReadManyStep(PendingItem, |ps[1..]|, PrintPendings(ps), ps[0], PrintPendings(ps[1..]), ps[1..], "");
      assert [ps[0]] + ps[1..] == ps;
    }
  }

  lemma {:induction false} PendingsPrintable(ps: seq<PendingNotification>)
    requires forall i :: 0 <= i < |ps| ==> SafePending(ps[i])
    ensures Printable(PrintPendings(ps))
  {
    if ps != [] {
      PendingsPrintable(ps[1..]);
      PendingsCons(ps);
      PendingBack(ps[0]);
      SizedPrintable(PrintPending(ps[0]));
    }
  }

  lemma PrintedPendingsStart(ps: seq<PendingNotification>)
    ensures PrintPendings(ps) == "" || PrintPendings(ps)[0] == ' '
  {
    if ps != [] {
      PendingsCons(ps);
    }
  }

  lemma QueueBack(ps: seq<PendingNotification>)
    requires SafeQueue(ps)
    ensures ParseQueue(PrintQueue(ps)) == Got(ps, "") && Printable(PrintQueue(ps))
  {
    PendingsBack(ps);
    PendingsPrintable(ps);
    PrintedPendingsStart(ps);
    ReadIntBack(|ps|, PrintPendings(ps));
    IntStringShape(|ps|);
  }

  // ----- one user's line of notifications -----

  function NotificationField(n: Notification): string {
    Sized(PrintNotification(n))
  }

  function PrintList(ns: seq<Notification>): string {
    Joined(Mapped(ns, NotificationField), ",")
  }

  function AfterFirst(ns: seq<Notification>): string
    requires ns != []
  {
    if |ns| == 1 then "" else "," + PrintList(ns[1..])
  }

  lemma ListCons(ns: seq<Notification>)
    requires ns != []
    ensures PrintList(ns) == Sized(PrintNotification(ns[0])) + AfterFirst(ns)
  {
    assert Mapped(ns, NotificationField)[1..] == Mapped(ns[1..], NotificationField);
  }

  function NotificationsLine(user: string, ns: seq<Notification>): string {
    user + (" " + (IntToString(|ns|) + (" " + PrintList(ns))))
  }

  function NotificationItem(s: string): Read<Notification> {
    var (raw, s) :- ReadSized(s);
    var (n, _) :- ParseNotification(raw);
    Got(n, IgnoreOne(s))
  }

  function ParseNotificationsLine(line: string): Read<(string, seq<Notification>)> {
    var (user, s) :- ReadToken(line);
    var (size, s) :- ReadInt(s);
    var (ns, s) :- ReadMany(NotificationItem, size, s);
    Got((user, ns), s)
  }

  predicate SafeList(ns: seq<Notification>) {
    && (forall i :: 0 <= i < |ns| ==> SafeNotification(ns[i]) && IsInt(|PrintNotification(ns[i])|))
    && IsInt(|ns|)
  }

  lemma NotificationItemBack(n: Notification, rest: string)
    requires SafeNotification(n) && IsInt(|PrintNotification(n)|)
    ensures NotificationItem(Sized(PrintNotification(n)) + rest) == Got(n, IgnoreOne(rest))
  {
    NotificationBack(n);
    NotificationPrintable(n);
    SizedBack(PrintNotification(n), rest);
  }

  lemma ListItemBack(ns: seq<Notification>)
    requires ns != [] && SafeNotification(ns[0]) && IsInt(|PrintNotification(ns[0])|)
    ensures NotificationItem(PrintList(ns)) == Got(ns[0], PrintList(ns[1..]))
  {
    ListCons(ns);
    NotificationItemBack(ns[0], AfterFirst(ns));
    if |ns| == 1 {
      assert Mapped(ns[1..], NotificationField) == [];
    }
  }

  lemma {:induction false} ListBack(ns: seq<Notification>)
    requires SafeList(ns)
    ensures ReadMany(NotificationItem, |ns|, PrintList(ns)) == Got(ns, "")
  {
    if ns != [] {
      ListBack(ns[1..]);
      ListBackStep(ns);
    }
  }

  lemma ListBackStep(ns: seq<Notification>)
    requires ns != [] && SafeList(ns)
    requires ReadMany(NotificationItem, |ns[1..]|, PrintList(ns[1..])) == Got(ns[1..], "")
    ensures ReadMany(NotificationItem, |ns|, PrintList(ns)) == Got(ns, "")
  {
    ListItemBack(ns);
    ReadManyStep(NotificationItem, |ns[1..]|, PrintList(ns), ns[0], PrintList(ns[1..]), ns[1..], "");
    assert [ns[0]] + ns[1..] == ns;
  }

  lemma ItemSpaced(s: string)
    ensures NotificationItem([' '] + s) == NotificationItem(s)
  {
    LeadingSpace(' ', s);
  }

  /** The blank in front of the first notification is skipped. */
  lemma ListBackSpaced(ns: seq<Notification>)
    requires SafeList(ns)
    ensures
      var r := ReadMany(NotificationItem, |ns|, [' '] + PrintList(ns));
      r.Got? && r.value == ns
  {
    if ns != [] {
      ListBack(ns);
      ItemSpaced(PrintList(ns));
      ReadManySame(NotificationItem, |ns|, [' '] + PrintList(ns), PrintList(ns));
    }
  }

  lemma {:induction false} ListPrintable(ns: seq<Notification>)
    requires SafeList(ns)
    ensures Printable(PrintList(ns))
  {
    if ns != [] {
      ListPrintable(ns[1..]);
      ListCons(ns);
      NotificationPrintable(ns[0]);
      SizedPrintable(PrintNotification(ns[0]));
    }
  }

  lemma NotificationsLineBack(user: string, ns: seq<Notification>)
    requires SafeName(user) && SafeList(ns)
    ensures
      var line := NotificationsLine(user, ns);
      && ParseNotificationsLine(line).Got? && ParseNotificationsLine(line).value == (user, ns)
      && Printable(line) && |line| >= 2
  {
    var s2 := [' '] + PrintList(ns);
    var s1 := [' '] + (IntToString(|ns|) + s2);
    ReadTokenBack(user, s1);
    IntField(|ns|, s2);
    ListBackSpaced(ns);
    assert NotificationsLine(user, ns) == user + s1;
    ListPrintable(ns);
    IntStringShape(|ns|);
    SafeNamePrintable(user);
  }

  // ----- one user's line with the pending queue -----

  function QueueLine(user: string, ps: seq<PendingNotification>): string {
    user + (" " + Sized(PrintQueue(ps)))
  }

  function ParseQueueLine(line: string): Read<(string, seq<PendingNotification>)> {
    var (user, s) :- ReadToken(line);
    var (raw, s) :- ReadSized(s);
    var (ps, _) :- ParseQueue(raw);
    Got((user, ps), s)
  }

  lemma QueueLineBack(user: string, ps: seq<PendingNotification>)
    requires SafeName(user) && SafeQueue(ps)
    ensures
      var line := QueueLine(user, ps);
      && ParseQueueLine(line).Got? && ParseQueueLine(line).value == (user, ps)
      && Printable(line) && line != ""
  {
    var raw := PrintQueue(ps);
    QueueBack(ps);
    ReadTokenBack(user, " " + Sized(raw));
    assert Sized(raw) + "" == Sized(raw);
    SizedBack(raw, "");
    SizedPrintable(raw);
    SafeNamePrintable(user);
  }
}
