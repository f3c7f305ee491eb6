/** The loops that print and read lists of notifications and of references. */
module CodecLoops {
  import opened Decimal
  import opened InputStream
  import opened StringUtils
  import opened NotificationStore
  import opened NotificationCodec

  /** NotificationQueue::serialize. */
  method SerializeQueue(ps: seq<PendingNotification>) returns (s: string)
    ensures s == PrintQueue(ps)
  {
    s := AppendEach(IntToString(|ps|), ps, PendingField);
  }

  /** NotificationQueue::deserialize. */
  method DeserializeQueue(raw: string) returns (r: Read<seq<PendingNotification>>)
    ensures r == ParseQueue(raw)
  {
    var size := ReadInt(raw);
    if size.Failed? {
      return Failed;
    }
    r := ReadInLoop(PendingItem, size.value, size.rest);
  }

  /** The inner loop of NotificationManager::serialize: one user's line, without the newline. */
  method SerializeLine(user: string, ns: seq<Notification>) returns (s: string)
    ensures s == NotificationsLine(user, ns)
  {
    var head := user + " " + IntToString(|ns|) + " ";
    s := AppendSeparated(head, ns, NotificationField, ",");
    assert NotificationsLine(user, ns) == head + PrintList(ns);
  }

  /** The inner loop of NotificationManager::deserialize: one user's line. */
  method DeserializeLine(line: string) returns (r: Read<(string, seq<Notification>)>)
    ensures r == ParseNotificationsLine(line)
  {
    var key := ReadToken(line);
    if key.Failed? {
      return Failed;
    }
    var size := ReadInt(key.rest);
    if size.Failed? {
      return Failed;
    }
    var list := ReadInLoop(NotificationItem, size.value, size.rest);
    if list.Failed? {
      return Failed;
    }
    r := Got((key.value, list.value), list.rest);
  }
}
