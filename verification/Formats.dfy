/** The texts that go over the wire and into the file, with every character that is always the same written out. */
module Formats {
  import opened Decimal
  import opened StringUtils
  import opened NotificationStore
  import opened NotificationCodec
  import opened Packets
  import Users
  import CsvText
  import Profiles
  import ProfileCodec
  import StoreCodec
  import ClientNotifications

  lemma Pairs<T>(a: T, b: T, field: T -> string, d: string)
    ensures Mapped([a, b], field) == [field(a), field(b)]
    ensures Joined([field(a), field(b)], d) == field(a) + d + field(b)
    ensures Concat([field(a), field(b)]) == field(a) + field(b)
  {
    var x, y := field(a), field(b);
    assert [x, y][1..] == [y] && [y][1..] == [];
    assert Concat([y]) == y + Concat([]) == y;
  }

  lemma TwoLines<T>(line: (string, T) -> string, m: map<string, T>, u: string, v: string)
    requires u in m && v in m
    ensures Terminated(StoreCodec.Lines(line, m, [u, v]), '\n') == line(u, m[u]) + "\n" + (line(v, m[v]) + "\n")
  {
    var x, y := line(u, m[u]), line(v, m[v]);
    assert StoreCodec.Lines(line, m, [u, v]) == [x, y];
    assert [x, y][1..] == [y] && [y][1..] == [];
    assert Terminated([y], '\n') == y + ['\n'] + Terminated([], '\n') == y + "\n";
  }

  lemma Visited(u: string, v: string)
    requires u != v
    ensures StoreCodec.Enumerates([u, v], {u, v})
  {
  }

  /** Ten digits, four labelled lines, an empty line and the payload. */
  lemma FrameLayout(p: PacketData)
    ensures
      var text := "type:" + TypeToString(p.kind) + "\n" + ("timestamp:" + NatToString(p.timestamp) + "\n"
                  + ("sequenceNumber:" + IntToString(p.sequenceNumber) + "\n" + ("length:" + IntToString(p.length))))
                  + "\n\n" + p.payload;
      Frame(p) == Padded(|text| % 0x1_0000_0000, 10) + text
  {
  }

  /** What a client is sent: four labelled lines, an empty line and the message. */
  lemma ShownLayout(n: Notification)
    ensures
      ClientNotifications.NotificationText(n) ==
      "id:" + IntToString(n.id) + "\n" + ("timestamp:" + NatToString(n.timestamp) + "\n"
      + ("sender:" + n.username + "\n" + ("length:" + IntToString(|n.message|)))) + "\n\n" + CStr(n.message)
  {
  }

  /** A user's notifications: their number, and each under its length. */
  lemma NotificationsLayout(user: string, a: Notification, b: Notification)
    ensures
      var x, y := PrintNotification(a), PrintNotification(b);
      NotificationsLine(user, [a, b]) ==
      user + (" " + ("2" + (" " + (IntToString(|x|) + (" " + x) + "," + (IntToString(|y|) + (" " + y))))))
  {
    Pairs(a, b, NotificationField, ",");
    assert NatToString(2) == "2";
  }

  /** A user's pending references: the length of them all, their number, and each under its length. */
  lemma QueueLayout(user: string, a: PendingNotification, b: PendingNotification)
    ensures
      var x, y := a.sender + (" " + IntToString(a.notificationId)), b.sender + (" " + IntToString(b.notificationId));
      var queue := "2" + (" " + (IntToString(|x|) + (" " + x)) + (" " + (IntToString(|y|) + (" " + y))));
      QueueLine(user, [a, b]) == user + (" " + (IntToString(|queue|) + (" " + queue)))
  {
    Pairs(a, b, PendingField, ",");
    assert NatToString(2) == "2";
  }

  /** What the backups are sent of the notifications: the next id, a line for each user, `&`, and another line for each. */
  lemma StoreLayout(st: Store, u: string, v: string)
    requires u != v && st.notifications.Keys == {u, v} && st.queues.Keys == {u, v}
    ensures
      var notifications := NotificationsLine(u, st.notifications[u]) + "\n" + (NotificationsLine(v, st.notifications[v]) + "\n");
      var queues := QueueLine(u, st.queues[u].pending) + "\n" + (QueueLine(v, st.queues[v].pending) + "\n");
      StoreCodec.Prints(st, IntToString(st.nextId) + "\n" + (notifications + "\n&\n" + queues))
  {
    Visited(u, v);
    TwoLines(NotificationsLine, st.notifications, u, v);
    TwoLines(StoreCodec.InboxLine, st.queues, u, v);
  }

  /** What the backups are sent of the users. */
  lemma UsersLayout(users: Profiles.Table, u: string, v: string)
    requires u != v && users.Keys == {u, v}
    ensures
      ProfileCodec.Prints(users, u + " " + Users.UserText(users[u]) + "\n" + (v + " " + Users.UserText(users[v]) + "\n"))
  {
    Visited(u, v);
    TwoLines(ProfileCodec.UserLine, users, u, v);
  }

  lemma UserLayout(id: int, name: string, f: string, g: string, s: Users.Session, t: Users.Session)
    ensures
      Users.UserText(Users.UserData(id, name, [f, g], [s, t])) ==
      IntToString(id) + " " + (name + " " + ("2" + " " + (f + "," + g + " " + ("2" + " "
      + (NatToString(s.threadId) + " " + s.username + "," + (NatToString(t.threadId) + " " + t.username))))))
  {
    Pairs(s, t, Users.SessionText, ",");
    Pairs(f, g, (x: string) => x, ",");
    assert NatToString(2) == "2";
  }

  /** What the file holds: a line for each user, with the followers behind the name. */
  lemma FileLayout(u: string, f: string, g: string, v: string)
    ensures CsvText.FileText([[u, f, g], [v]], Profiles.SPLIT) == u + ";" + (f + ";" + g) + "\n" + v
  {
    Pairs(f, g, (x: string) => x, ";");
    assert [u, f, g][1..] == [f, g];
    var rows := [[u, f, g], [v]];
    var lines := CsvText.RowTexts(rows, ';');
    assert lines == [CsvText.RowText(rows[0], ';'), CsvText.RowText(rows[1], ';')];
    Pairs(lines[0], lines[1], (x: string) => x, "\n");
  }
}
