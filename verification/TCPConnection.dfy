/** Sending and receiving packets over a stream of characters, src/lib/socket/TCPConnection.cpp. */
module Connections {
  import opened Decimal
  import opened InputStream
  import opened StringUtils
  import opened Packets
  import opened Integers

  /** What `receive` can come to. */
  datatype Outcome =
    | NoPacket              // NULL: the stream ended
    | StdException          // thrown by std::stoul
    | Undefined             // a negative size: the C++ behaviour is undefined
    | Received(data: PacketData)

  /** The effect of one `receive` on the characters that arrive until the peer closes. */
  function Receiving(s: string, now: nat): (Outcome, string) {
    if |s| < SIZE_FIELD_LENGTH then (NoPacket, "")
    else
      var sizeStr, later := CStr(s[..SIZE_FIELD_LENGTH]), s[SIZE_FIELD_LENGTH..];
      var size := ReadULong(sizeStr);
      if size.Failed? then (StdException, later)
      else
        var n := ToInt32(size.value);
        if n < 0 then (Undefined, later)
        else if |later| < n then (NoPacket, "")
        else (Received(Parsed(sizeStr + CStr(later[..n]), now)), later[n..])
  }

  function Frames(packets: seq<PacketData>): string {
    Concat(Mapped(packets, Frame))
  }

  /** As many `receive` calls as there are times. */
  function ReceivingMany(s: string, nows: seq<nat>): (seq<Outcome>, string)
    decreases |nows|
  {
    if nows == [] then ([], s)
    else
      var first := Receiving(s, nows[0]);
      var more := ReceivingMany(first.1, nows[1..]);
      ([first.0] + more.0, more.1)
  }

  lemma SplitAt(a: string, b: string, rest: string)
    ensures (a + b + rest)[..|a|] == a && (a + b + rest)[|a|..] == b + rest
  {
  }

  /** The size field is read as the size of the text behind it. */
  lemma SizeBack(p: PacketData)
    requires Carried(p)
    ensures CStr(SizeField(p)) == SizeField(p)
    ensures ReadULong(SizeField(p)) == Got(|Body(p)|, "")
    ensures ToInt32(|Body(p)|) == |Body(p)|
  {
    FrameShape(p);
    CStrSame(SizeField(p));
    ReadSize(SizeField(p));
  }

  lemma ReadSize(digits: string)
    requires digits != "" && AllDigits(digits) && Value(digits) < TWO_32
    ensures ReadULong(digits) == Got(Value(digits), "")
  {
    ReadDigitsBack(digits, "");
    assert digits + "" == digits;
  }

  /** One frame is received as the packet that was sent, and nothing behind it is touched. */
  lemma ReceivingFrame(p: PacketData, rest: string, now: nat)
    requires Carried(p)
    ensures Receiving(Frame(p) + rest, now) == (Received(p), rest)
  {
    SizeBack(p);
    FrameShape(p);
    SplitAt(SizeField(p), Body(p), rest);
    BodyClean(p);
    CStrSame(Body(p));
    assert (Body(p) + rest)[..|Body(p)|] == Body(p);
    assert (Body(p) + rest)[|Body(p)|..] == rest;
    ParsedBack(p, now);
  }

  /** The size of a longer text is read as a negative number, or as that of a part of the text. */
  lemma TooLong(p: PacketData, rest: string, now: nat)
    requires |Body(p)| > INT_MAX
    ensures Receiving(Frame(p) + rest, now) != (Received(p), rest)
  {
    FrameShape(p);
    SplitAt(SizeField(p), Body(p), rest);
    CStrSame(SizeField(p));
    ReadDigitsBack(SizeField(p), "");
    assert SizeField(p) + "" == SizeField(p);
  }

  /** A frame is received as the packet that was sent exactly if its size fits an int. */
  lemma ReceivedExactly(p: PacketData, rest: string, now: nat)
    requires SafeFields(p)
    ensures Receiving(Frame(p) + rest, now) == (Received(p), rest) <==> |Body(p)| <= INT_MAX
  {
    if |Body(p)| <= INT_MAX {
      ReceivingFrame(p, rest, now);
    } else {
      TooLong(p, rest, now);
    }
  }

  lemma BodyClean(p: PacketData)
    requires Carried(p)
    ensures '\0' !in Body(p)
  {
    HeaderShape(p);
  }

  /** A stream that ends inside a frame yields no packet at all. */
  lemma CutFrame(p: PacketData, k: nat, now: nat)
    requires Carried(p) && k < |Frame(p)|
    ensures Receiving(Frame(p)[..k], now) == (NoPacket, "")
  {
    FrameShape(p);
    if k >= SIZE_FIELD_LENGTH {
      SizeBack(p);
      assert Frame(p)[..k][..SIZE_FIELD_LENGTH] == SizeField(p);
    }
  }

  /** Any sequence of packets is received as it was sent. */
  lemma {:induction false} FramesBack(packets: seq<PacketData>, rest: string, nows: seq<nat>)
    requires |nows| == |packets|
    requires forall k :: 0 <= k < |packets| ==> Carried(packets[k])
    ensures
      var received := ReceivingMany(Frames(packets) + rest, nows);
      && |received.0| == |packets| && received.1 == rest
      && forall k :: 0 <= k < |packets| ==> received.0[k] == Received(packets[k])
  {
    if packets == [] {
      assert Frames(packets) + rest == rest;
    } else {
      var later := Frames(packets[1..]) + rest;
      FramesCons(packets, rest);
      ReceivingFrame(packets[0], later, nows[0]);
      FramesBack(packets[1..], rest, nows[1..]);
    }
  }

  lemma FramesCons(packets: seq<PacketData>, rest: string)
    requires packets != []
    ensures Frames(packets) + rest == Frame(packets[0]) + (Frames(packets[1..]) + rest)
  {
    assert Mapped(packets, Frame)[1..] == Mapped(packets[1..], Frame);
  }

  /** One end of a connection, as the system calls see it. */
  class Socket {
    var incoming: string   // what is still to arrive before the peer closes
    var outgoing: string   // what was sent so far

    constructor (arriving: string)
      ensures incoming == arriving && outgoing == ""
    {
      incoming, outgoing := arriving, "";
    }

    /** `recv` takes any positive number of characters, and none only at the end of the stream. */
    method Recv(buffer: array<char>, offset: nat, max: nat) returns (n: nat)
      requires 0 < max && offset + max <= buffer.Length
      modifies this`incoming, buffer
      ensures n <= max && n <= |old(incoming)| && (n == 0 <==> old(incoming) == "")
      ensures incoming == old(incoming)[n..]
      ensures forall i :: 0 <= i < buffer.Length && !(offset <= i < offset + n) ==> buffer[i] == old(buffer[i])
      ensures forall i :: 0 <= i < n ==> buffer[offset + i] == old(incoming)[i]
    {
      if incoming == "" {
        return 0;
      }
      var available := if |incoming| < max then |incoming| else max;
      assert 1 <= available;
      n :| 1 <= n <= available;
      forall i | 0 <= i < n {
        buffer[offset + i] := incoming[i];
      }
      incoming := incoming[n..];
    }

    method Send(text: string)
      modifies this`outgoing
      ensures outgoing == old(outgoing) + text
    {
      outgoing := outgoing + text;
    }
  }

  class TCPConnection {
    const m_socket: Socket
    var m_sequenceNumber: int

    constructor (socket: Socket, random: nat)
      ensures m_socket == socket && m_sequenceNumber == random % 16384
    {
      m_socket := socket;
      m_sequenceNumber := random % 16384;
    }

    /** The packet is stamped, and put on the stream behind everything sent before. */
    method Send(packet: Packet, now: nat)
      modifies this`m_sequenceNumber, packet`m_sequenceNumber, packet`m_timestamp, m_socket`outgoing
      ensures m_sequenceNumber == old(m_sequenceNumber) + 1
      ensures packet.Data() == old(packet.Data()).(sequenceNumber := old(m_sequenceNumber), timestamp := now)
      ensures m_socket.outgoing == old(m_socket.outgoing) + Frame(packet.Data())
    {
      packet.m_sequenceNumber := m_sequenceNumber;
      m_sequenceNumber := m_sequenceNumber + 1;
      packet.m_timestamp := now;
      var buffer := packet.Serialize();
      m_socket.Send(buffer);
    }

    /** Exactly `length` characters, however they arrive; they pass through a C string. */
    method ReceiveAll(length: nat) returns (ok: bool, data: string)
      modifies m_socket`incoming
      ensures ok <==> length <= |old(m_socket.incoming)|
      ensures ok ==> data == CStr(old(m_socket.incoming)[..length])
      ensures ok ==> m_socket.incoming == old(m_socket.incoming)[length..]
      ensures !ok ==> m_socket.incoming == ""
    {
      var buffer := new char[length + 1];
      var bufferPtr := 0;
      var currLength := length;
      ghost var all := m_socket.incoming;
      while currLength > 0
        invariant 0 <= bufferPtr <= length && currLength == length - bufferPtr && bufferPtr <= |all|
        invariant m_socket.incoming == all[bufferPtr..]
        invariant forall i :: 0 <= i < bufferPtr ==> buffer[i] == all[i]
      {
        var bytesReceived := m_socket.Recv(buffer, bufferPtr, currLength);
        if bytesReceived < 1 {
          return false, "";
        }
        bufferPtr := bufferPtr + bytesReceived;
        currLength := currLength - bytesReceived;
      }
      buffer[length] := '\0';
      assert buffer[..] == all[..length] + "\0";
      CStrStops(all[..length]);
      return true, CStr(buffer[..]);
    }

    method Receive(now: nat) returns (outcome: Outcome, packet: Packet?)
      modifies m_socket`incoming
      ensures (outcome, m_socket.incoming) == Receiving(old(m_socket.incoming), now)
      ensures outcome.Received? <==> packet != null
      ensures packet != null ==> fresh(packet) && packet.Data() == outcome.data
    {
      packet := null;
      var received, sizeStr := ReceiveAll(SIZE_FIELD_LENGTH);
      if received {
        var parsed := ReadULong(sizeStr);
        if parsed.Failed? {
          return StdException, null;
        }
        var size := ToInt32(parsed.value);
        if size < 0 {
          return Undefined, null;
        }
        var packetStr;
        received, packetStr := ReceiveAll(size);
        if received {
          packetStr := sizeStr + packetStr;
          var pkt := Packet.Deserialize(packetStr, now);
          return Received(pkt.Data()), pkt;
        }
      }
      return NoPacket, null;
    }
  }

  /** A C string ends at the first NUL. */
  lemma {:induction false} CStrStops(s: string)
    ensures CStr(s + "\0") == CStr(s)
  {
    if s != "" {
      assert (s + "\0")[1..] == s[1..] + "\0";
      CStrStops(s[1..]);
    }
  }
}
