/**
 * A notification on its way to a client: Notification::serialize of the server, a DATA packet, the
 * connection, and Notification::deserialize of the client.
 */
module ClientNotifications {
  import opened Decimal
  import opened InputStream
  import opened StringUtils
  import opened Headers
  import opened NotificationStore
  import opened Packets
  import opened Connections

  /** What the client makes of a notification; it shows the timestamp as a date. */
  datatype Shown = Shown(id: int, sender: string, timestamp: nat, message: string)

  function IdLine(n: Notification): string {
    "id:" + IntToString(n.id)
  }

  function SentLine(n: Notification): string {
    "timestamp:" + NatToString(n.timestamp)
  }

  function SenderLine(n: Notification): string {
    "sender:" + n.username
  }

  function MessageLine(n: Notification): string {
    "length:" + IntToString(|n.message|)
  }

  function NotificationHeader(n: Notification): string {
    IdLine(n) + "\n" + (SentLine(n) + "\n" + (SenderLine(n) + "\n" + MessageLine(n)))
  }

  /** Notification::serialize on the server. */
  function NotificationText(n: Notification): string {
    NotificationHeader(n) + BLANK_LINE + CStr(n.message)
  }

  method SerializeNotification(n: Notification) returns (s: string)
    ensures s == NotificationText(n)
  {
    s := "id:" + IntToString(n.id);
    assert "\n" + "timestamp:" == "\ntimestamp:" && "\n" + "sender:" == "\nsender:" && "\n" + "length:" == "\nlength:";
    AppendLine(s, "timestamp:", NatToString(n.timestamp));
    s := s + "\ntimestamp:" + NatToString(n.timestamp);
    AppendLine(s, "sender:", n.username);
    s := s + "\nsender:" + n.username;
    AppendLine(s, "length:", IntToString(|n.message|));
    s := s + "\nlength:" + IntToString(|n.message|);
    Regroup(IdLine(n), SentLine(n), SenderLine(n), MessageLine(n));
    s := s + "\n\n" + CStr(n.message);
  }

  datatype Fields = Fields(id: int, timestamp: nat, sender: string, length: int)

  function ParseFields(s: string): Read<Fields> {
    var (id, s) :- ReadLabelled("id:", ReadInt, s);
    var (timestamp, s) :- ReadNext("timestamp:", ReadULong, s);
    var (sender, s) :- ReadNext("sender:", ReadToken, s);
    var (length, s) :- ReadNext("length:", ReadInt, s);
    Got(Fields(id, timestamp, sender, length), s)
  }

  /** Notification::deserialize on the client; `Failed` is the null pointer. */
  function ParseShown(raw: string): Read<Shown> {
    var parts := SplitFirst(raw, BLANK_LINE);
    var (h, _) :- ParseFields(CStr(parts.0));
    Got(Shown(h.id, h.sender, h.timestamp, parts.1), "")
  }

  /** What the format carries: the sender fits the client's buffer, the message has any text but NUL. */
  predicate Showable(n: Notification) {
    && IsInt(n.id) && n.timestamp <= ULONG_MAX
    && IsToken(n.username) && '\0' !in n.username && |n.username| <= 44
    && '\0' !in n.message && IsInt(|n.message|)
  }

  function AsShown(n: Notification): Shown {
    Shown(n.id, n.username, n.timestamp, n.message)
  }

  lemma ParseFieldsBack(n: Notification)
    requires Showable(n)
    ensures ParseFields(NotificationHeader(n)) == Got(Fields(n.id, n.timestamp, n.username, |n.message|), "")
  {
    var afterSender := "\n" + MessageLine(n);
    var afterTime := "\n" + (SenderLine(n) + afterSender);
    var afterId := "\n" + (SentLine(n) + afterTime);
    ReadIntBack(n.id, afterId);
    LabelledBack("id:", ReadInt, IntToString(n.id), afterId, n.id);
    ReadULongBack(n.timestamp, afterTime);
    NextBack("timestamp:", ReadULong, NatToString(n.timestamp), afterTime, n.timestamp);
    ReadTokenBack(n.username, afterSender);
    NextBack("sender:", ReadToken, n.username, afterSender, n.username);
    ReadIntBack(|n.message|, "");
    NextBack("length:", ReadInt, IntToString(|n.message|), "", |n.message|);
    HeaderNested(n);
    assert MessageLine(n) == "length:" + IntToString(|n.message|) + "";
  }

  lemma HeaderNested(n: Notification)
    ensures NotificationHeader(n) ==
            IdLine(n) + ("\n" + (SentLine(n) + ("\n" + (SenderLine(n) + ("\n" + MessageLine(n))))))
  {
    assert SenderLine(n) + "\n" + MessageLine(n) == SenderLine(n) + ("\n" + MessageLine(n));
    assert SentLine(n) + "\n" + (SenderLine(n) + "\n" + MessageLine(n))
        == SentLine(n) + ("\n" + (SenderLine(n) + ("\n" + MessageLine(n))));
  }

  lemma HeaderCompact(n: Notification)
    requires Showable(n)
    ensures Compact(NotificationHeader(n)) && '\0' !in NotificationHeader(n)
  {
    NumberShape("id:", n.id);
    NumberShape("timestamp:", n.timestamp);
    NumberShape("length:", |n.message|);
    assert '\n' !in n.username;
    CompactLine(SenderLine(n));
    CompactLines(SenderLine(n), MessageLine(n));
    CompactLines(SentLine(n), SenderLine(n) + "\n" + MessageLine(n));
    CompactLines(IdLine(n), SentLine(n) + "\n" + (SenderLine(n) + "\n" + MessageLine(n)));
  }

  /** The client reads what the server wrote, even when the message contains blank lines. */
  lemma ShownBack(n: Notification)
    requires Showable(n)
    ensures ParseShown(NotificationText(n)) == Got(AsShown(n), "") && '\0' !in NotificationText(n)
  {
    HeaderCompact(n);
    CStrSame(n.message);
    CStrSame(NotificationHeader(n));
    HeaderEnds(NotificationHeader(n), n.message);
    ParseFieldsBack(n);
  }

  /** The DATA packet of NotificationConsumer, as it is stamped by the connection. */
  function DataPacket(n: Notification, sequenceNumber: int, timestamp: nat): PacketData {
    PacketData(|NotificationText(n)|, DATA, sequenceNumber, timestamp, CStr(NotificationText(n)))
  }

  predicate Sendable(n: Notification, sequenceNumber: int, timestamp: nat) {
    && Showable(n) && IsInt(sequenceNumber) && timestamp <= ULONG_MAX
    && |Body(DataPacket(n, sequenceNumber, timestamp))| <= INT_MAX
  }

  lemma DataPacketCarried(n: Notification, sequenceNumber: int, timestamp: nat)
    requires Sendable(n, sequenceNumber, timestamp)
    ensures Carried(DataPacket(n, sequenceNumber, timestamp))
    ensures ParseShown(DataPacket(n, sequenceNumber, timestamp).payload) == Got(AsShown(n), "")
  {
    ShownBack(n);
    CStrSame(NotificationText(n));
  }

  function DataPackets(ns: seq<Notification>, sequenceNumber: int, times: seq<nat>): (packets: seq<PacketData>)
    requires |times| == |ns|
    ensures |packets| == |ns|
    ensures forall k :: 0 <= k < |ns| ==> packets[k] == DataPacket(ns[k], sequenceNumber + k, times[k])
  {
    seq(|ns|, k requires 0 <= k < |ns| => DataPacket(ns[k], sequenceNumber + k, times[k]))
  }

  /** All notifications sent over one connection arrive at the client, in order and unaltered. */
  lemma EndToEnd(ns: seq<Notification>, sequenceNumber: int, times: seq<nat>, rest: string, nows: seq<nat>)
    requires |times| == |nows| == |ns|
    requires forall k :: 0 <= k < |ns| ==> Sendable(ns[k], sequenceNumber + k, times[k])
    ensures
      var received := ReceivingMany(Frames(DataPackets(ns, sequenceNumber, times)) + rest, nows);
      && |received.0| == |ns| && received.1 == rest
      && forall k :: 0 <= k < |ns| ==>
           && received.0[k].Received?
           && received.0[k].data.kind == DATA
           && ParseShown(received.0[k].data.payload) ==
                Got(Shown(ns[k].id, ns[k].username, ns[k].timestamp, ns[k].message), "")
  {
    var packets := DataPackets(ns, sequenceNumber, times);
    forall k | 0 <= k < |packets|
      ensures Carried(packets[k]) && ParseShown(packets[k].payload) == Got(AsShown(ns[k]), "")
    {
      DataPacketCarried(ns[k], sequenceNumber + k, times[k]);
    }
    FramesBack(packets, rest, nows);
  }
}
