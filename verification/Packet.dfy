/** Packets and their text form, src/lib/packet/Packet.cpp. */
module Packets {
  import opened Decimal
  import opened InputStream
  import opened StringUtils
  import opened Headers
  import opened Integers

  datatype PacketType =
    | ACK | ANSWER | IS_ALIVE | SERVER_DOWN | NEW_REPLICA | REPLICAS | NEW_LEADER | ELECTION | COORDINATOR
    | UPDATE_PROFILE | UPDATE_NOTIFICATION
    | DATA | SEND | LOGIN | FOLLOW | SUCCESS | ERROR | CLOSE | NO_TYPE

  /** What a packet holds. */
  datatype PacketData = PacketData(length: int, kind: PacketType, sequenceNumber: int, timestamp: nat, payload: string)

  const SIZE_FIELD_LENGTH: nat := 10

  function TypeToString(kind: PacketType): string {
    match kind
    case ANSWER => "ANSWER"
    case ACK => "ACK"
    case NEW_REPLICA => "NEW_REPLICA"
    case REPLICAS => "REPLICAS"
    case IS_ALIVE => "IS_ALIVE"
    case SERVER_DOWN => "SERVER_DOWN"
    case ELECTION => "ELECTION"
    case NEW_LEADER => "NEW_LEADER"
    case COORDINATOR => "COORDINATOR"
    case UPDATE_PROFILE => "UPDATE_PROFILE"
    case UPDATE_NOTIFICATION => "UPDATE_NOTIFICATION"
    case SEND => "SEND"
    case FOLLOW => "FOLLOW"
    case LOGIN => "LOGIN"
    case SUCCESS => "SUCCESS"
    case ERROR => "ERROR"
    case DATA => "DATA"
    case CLOSE => "CLOSE"
    case NO_TYPE => "NO_TYPE"
  }

  function StringToType(s: string): PacketType {
    if s == "ACK" then ACK
    else if s == "ANSWER" then ANSWER
    else if s == "NEW_REPLICA" then NEW_REPLICA
    else if s == "REPLICAS" then REPLICAS
    else if s == "IS_ALIVE" then IS_ALIVE
    else if s == "SERVER_DOWN" then SERVER_DOWN
    else if s == "ELECTION" then ELECTION
    else if s == "NEW_LEADER" then NEW_LEADER
    else if s == "COORDINATOR" then COORDINATOR
    else if s == "UPDATE_PROFILE" then UPDATE_PROFILE
    else if s == "UPDATE_NOTIFICATION" then UPDATE_NOTIFICATION
    else if s == "SEND" then SEND
    else if s == "FOLLOW" then FOLLOW
    else if s == "LOGIN" then LOGIN
    else if s == "SUCCESS" then SUCCESS
    else if s == "ERROR" then ERROR
    else if s == "DATA" then DATA
    else if s == "CLOSE" then CLOSE
    else NO_TYPE
  }

  predicate BetweenServers(kind: PacketType) {
    match kind
    case ACK | ANSWER | IS_ALIVE | SERVER_DOWN | NEW_REPLICA | REPLICAS | NEW_LEADER => true
    case _ => false
  }

  predicate OfElection(kind: PacketType) {
    kind.ELECTION? || kind.COORDINATOR? || kind.UPDATE_PROFILE? || kind.UPDATE_NOTIFICATION?
  }

  lemma ServerTypeBack(kind: PacketType)
    requires BetweenServers(kind)
    ensures StringToType(TypeToString(kind)) == kind
  {
  }

  lemma ElectionTypeBack(kind: PacketType)
    requires OfElection(kind)
    ensures StringToType(TypeToString(kind)) == kind
  {
  }

  lemma ClientTypeBack(kind: PacketType)
    requires !BetweenServers(kind) && !OfElection(kind)
    ensures StringToType(TypeToString(kind)) == kind
  {
  }

  /** Reading a name back gives the type, and every name fits the buffer of 30 characters. */
  lemma TypeBack(kind: PacketType)
    ensures StringToType(TypeToString(kind)) == kind && |TypeToString(kind)| < 30
  {
    if BetweenServers(kind) {
      ServerTypeBack(kind);
    } else if OfElection(kind) {
      ElectionTypeBack(kind);
    } else {
      ClientTypeBack(kind);
    }
  }

  predicate IsName(s: string) {
    s != "" && forall k :: 0 <= k < |s| ==> 'A' <= s[k] <= '_'
  }

  lemma NamesAreTokens(kind: PacketType)
    ensures IsName(TypeToString(kind))
  {
  }

  lemma NameClean(s: string)
    requires IsName(s)
    ensures IsToken(s) && '\n' !in s && '\0' !in s
  {
  }

  // ----- the text form -----

  function TypeLine(p: PacketData): string {
    "type:" + TypeToString(p.kind)
  }

  function TimeLine(p: PacketData): string {
    "timestamp:" + NatToString(p.timestamp)
  }

  function NumberLine(p: PacketData): string {
    "sequenceNumber:" + IntToString(p.sequenceNumber)
  }

  function LengthLine(p: PacketData): string {
    "length:" + IntToString(p.length)
  }

  function Header(p: PacketData): string {
    TypeLine(p) + "\n" + (TimeLine(p) + "\n" + (NumberLine(p) + "\n" + LengthLine(p)))
  }

  function Body(p: PacketData): string {
    Header(p) + BLANK_LINE + p.payload
  }

  function SizeField(p: PacketData): string {
    Padded(|Body(p)| % TWO_32, SIZE_FIELD_LENGTH)
  }

  /** The packet that is made from a C string, as a connection stamps it. */
  function TextPacket(kind: PacketType, text: string, sequenceNumber: int, timestamp: nat): PacketData {
    PacketData(|CStr(text)|, kind, sequenceNumber, timestamp, CStr(text))
  }

  /** The packet as it goes over the wire: its size in ten digits, and its text. */
  function Frame(p: PacketData): string {
    SizeField(p) + Body(p)
  }

  datatype HeaderFields = HeaderFields(name: string, timestamp: nat, sequenceNumber: int, length: int)

  /** The `sscanf` call; it fails unless all four conversions succeed. */
  function ParseHeader(s: string): Read<HeaderFields> {
    var (name, s) :- ReadLabelled("type:", ReadToken, s);
    var (timestamp, s) :- ReadNext("timestamp:", ReadULong, s);
    var (sequenceNumber, s) :- ReadNext("sequenceNumber:", ReadInt, s);
    var (length, s) :- ReadNext("length:", ReadInt, s);
    Got(HeaderFields(name, timestamp, sequenceNumber, length), s)
  }

  const BAD_REQUEST := "Unable to parse. Bad request."

  function BadRequest(now: nat): PacketData {
    PacketData(|BAD_REQUEST|, NO_TYPE, -1, now, BAD_REQUEST)
  }

  function Dropped(s: string, n: nat): string {
    if n <= |s| then s[n..] else ""
  }

  function ParseBody(s: string, now: nat): PacketData {
    var parts := SplitFirst(s, BLANK_LINE);
    var header := ParseHeader(CStr(parts.0));
    if header.Got? then
      var h := header.value;
      PacketData(h.length, StringToType(h.name), h.sequenceNumber, h.timestamp, CStr(parts.1))
    else BadRequest(now)
  }

  /** What `deserialize` makes of a text, at time `now`. */
  function Parsed(raw: string, now: nat): PacketData {
    ParseBody(Dropped(CStr(raw), SIZE_FIELD_LENGTH), now)
  }

  /** The fields of the packet are ones that the text form can carry. */
  predicate SafeFields(p: PacketData) {
    && '\0' !in p.payload
    && IsInt(p.length) && IsInt(p.sequenceNumber) && p.timestamp <= ULONG_MAX
  }

  /** A packet that the text form can carry, and whose size fits the receiver's int. */
  predicate Carried(p: PacketData) {
    SafeFields(p) && |Body(p)| <= INT_MAX
  }

  // ----- parsing undoes printing -----

  lemma ParseHeaderBack(p: PacketData)
    requires IsInt(p.length) && IsInt(p.sequenceNumber) && p.timestamp <= ULONG_MAX
    ensures ParseHeader(Header(p)) ==
            Got(HeaderFields(TypeToString(p.kind), p.timestamp, p.sequenceNumber, p.length), "")
  {
    var afterNumber := "\n" + LengthLine(p);
    var afterTime := "\n" + (NumberLine(p) + afterNumber);
    var afterType := "\n" + (TimeLine(p) + afterTime);
    NamesAreTokens(p.kind);
    NameClean(TypeToString(p.kind));
    ReadTokenBack(TypeToString(p.kind), afterType);
    LabelledBack("type:", ReadToken, TypeToString(p.kind), afterType, TypeToString(p.kind));
    ReadULongBack(p.timestamp, afterTime);
    NextBack("timestamp:", ReadULong, NatToString(p.timestamp), afterTime, p.timestamp);
    ReadIntBack(p.sequenceNumber, afterNumber);
    NextBack("sequenceNumber:", ReadInt, IntToString(p.sequenceNumber), afterNumber, p.sequenceNumber);
    ReadIntBack(p.length, "");
    NextBack("length:", ReadInt, IntToString(p.length), "", p.length);
    HeaderRight(p);
    assert LengthLine(p) == "length:" + IntToString(p.length) + "";
  }

  lemma HeaderRight(p: PacketData)
    ensures Header(p) == TypeLine(p) + ("\n" + (TimeLine(p) + ("\n" + (NumberLine(p) + ("\n" + LengthLine(p))))))
  {
    assert TimeLine(p) + "\n" + (NumberLine(p) + "\n" + LengthLine(p))
        == TimeLine(p) + ("\n" + (NumberLine(p) + ("\n" + LengthLine(p)))) by {
      assert NumberLine(p) + "\n" + LengthLine(p) == NumberLine(p) + ("\n" + LengthLine(p));
    }
  }

  lemma AppendLine(s: string, key: string, text: string)
    ensures s + ("\n" + key) + text == s + "\n" + (key + text)
  {
  }

  lemma Regroup(a: string, b: string, c: string, d: string)
    ensures a + "\n" + b + "\n" + c + "\n" + d == a + "\n" + (b + "\n" + (c + "\n" + d))
  {
    assert b + "\n" + (c + "\n" + d) == b + "\n" + c + "\n" + d;
  }

  /** The header as `serialize` appends its pieces. */
  lemma HeaderLeft(p: PacketData)
    ensures Header(p) ==
            "type:" + TypeToString(p.kind) + "\ntimestamp:" + NatToString(p.timestamp)
            + "\nsequenceNumber:" + IntToString(p.sequenceNumber) + "\nlength:" + IntToString(p.length)
  {
    var s1 := TypeLine(p);
    assert "\n" + "timestamp:" == "\ntimestamp:";
    AppendLine(s1, "timestamp:", NatToString(p.timestamp));
    var s2 := s1 + "\n" + TimeLine(p);
    assert "\n" + "sequenceNumber:" == "\nsequenceNumber:";
    AppendLine(s2, "sequenceNumber:", IntToString(p.sequenceNumber));
    var s3 := s2 + "\n" + NumberLine(p);
    assert "\n" + "length:" == "\nlength:";
    AppendLine(s3, "length:", IntToString(p.length));
    Regroup(TypeLine(p), TimeLine(p), NumberLine(p), LengthLine(p));
  }

  lemma NumberShape(key: string, n: int)
    requires key != "" && '\n' !in key && '\0' !in key
    ensures Compact(key + IntToString(n)) && '\0' !in key + IntToString(n)
  {
    IntStringShape(n);
    CompactLine(key + IntToString(n));
  }

  lemma TypeShape(p: PacketData)
    ensures Compact(TypeLine(p)) && '\0' !in TypeLine(p)
  {
    NamesAreTokens(p.kind);
    NameClean(TypeToString(p.kind));
    CompactLine(TypeLine(p));
  }

  /** A header has no empty line and no NUL. */
  lemma HeaderShape(p: PacketData)
    ensures Compact(Header(p)) && '\0' !in Header(p)
  {
    TypeShape(p);
    NumberShape("timestamp:", p.timestamp);
    NumberShape("sequenceNumber:", p.sequenceNumber);
    NumberShape("length:", p.length);
    CompactLines(NumberLine(p), LengthLine(p));
    CompactLines(TimeLine(p), NumberLine(p) + "\n" + LengthLine(p));
    CompactLines(TypeLine(p), TimeLine(p) + "\n" + (NumberLine(p) + "\n" + LengthLine(p)));
  }

  /** Parsing undoes printing for payloads with any content, blank lines included. */
  lemma ParseBodyBack(p: PacketData, now: nat)
    requires Carried(p)
    ensures ParseBody(Body(p), now) == p
  {
    HeaderShape(p);
    HeaderEnds(Header(p), p.payload);
    CStrSame(Header(p));
    CStrSame(p.payload);
    ParseHeaderBack(p);
    TypeBack(p.kind);
  }

  /** `deserialize` undoes `serialize`. */
  lemma ParsedBack(p: PacketData, now: nat)
    requires Carried(p)
    ensures Parsed(Frame(p), now) == p
  {
    FrameShape(p);
    HeaderShape(p);
    CStrSame(Frame(p));
    ParseBodyBack(p, now);
    assert Frame(p)[SIZE_FIELD_LENGTH..] == Body(p);
  }

  lemma DigitsClean(s: string)
    requires AllDigits(s)
    ensures '\0' !in s && '\n' !in s
  {
  }

  /** The size field has its ten digits, and no digit of it is lost. */
  lemma FrameShape(p: PacketData)
    ensures |SizeField(p)| == 10 && AllDigits(SizeField(p)) && '\0' !in SizeField(p)
    ensures Value(SizeField(p)) == |Body(p)| % 0x1_0000_0000
  {
    var size := |Body(p)| % TWO_32;
    assert Pow10(10) == 10_000_000_000 by {
      assert Pow10(2) == 100;
      assert Pow10(4) == 10_000;
      assert Pow10(6) == 1_000_000;
      assert Pow10(8) == 100_000_000;
    }
    DigitCount(size, SIZE_FIELD_LENGTH);
    ValueOfPadded(size, SIZE_FIELD_LENGTH);
    DigitsClean(Padded(size, SIZE_FIELD_LENGTH));
  }

  // ----- the class -----

  class Packet {
    var m_length: int
    var m_type: PacketType
    var m_sequenceNumber: int
    var m_timestamp: nat
    var m_payload: string

    function Data(): PacketData
      reads this
    {
      PacketData(m_length, m_type, m_sequenceNumber, m_timestamp, m_payload)
    }

    /** From the text of a C string. */
    constructor (kind: PacketType, payload: string, now: nat)
      ensures Data() == PacketData(|CStr(payload)|, kind, -1, now, CStr(payload))
    {
      m_type := kind;
      m_timestamp := now;
      m_sequenceNumber := -1;
      var buff := CStr(payload);
      m_payload := buff;
      m_length := |buff|;
    }

    /** From the serialized form of an object: the length counts characters behind a NUL too. */
    constructor OfData(kind: PacketType, data: string, now: nat)
      ensures Data() == PacketData(|data|, kind, -1, now, CStr(data))
    {
      m_type := kind;
      m_timestamp := now;
      m_sequenceNumber := -1;
      m_payload := CStr(data);
      m_length := |data|;
    }

    constructor Received(length: int, kind: PacketType, sequenceNumber: int, timestamp: nat, payload: string)
      ensures Data() == PacketData(length, kind, sequenceNumber, timestamp, CStr(payload))
    {
      m_type := kind;
      m_timestamp := timestamp;
      m_sequenceNumber := sequenceNumber;
      m_payload := CStr(payload);
      m_length := length;
    }

    method Serialize() returns (s: string)
      ensures s == Frame(Data())
    {
      s := "type:" + TypeToString(m_type);
      s := s + "\ntimestamp:" + NatToString(m_timestamp);
      s := s + "\nsequenceNumber:" + IntToString(m_sequenceNumber);
      s := s + "\nlength:" + IntToString(m_length);
      HeaderLeft(Data());
      s := s + "\n\n" + m_payload;
      var totalSize := |s| % TWO_32;
      s := Padded(totalSize, 10) + s;
    }

    static method Deserialize(rawData: string, now: nat) returns (p: Packet)
      ensures fresh(p) && p.Data() == Parsed(rawData, now)
    {
      var data := CStr(rawData);
      data := Dropped(data, SIZE_FIELD_LENGTH);
      var headerAndPayload := SplitFirst(data, BLANK_LINE);
      var header := ParseHeader(CStr(headerAndPayload.0));
      if header.Got? {
        var h := header.value;
        p := new Packet.Received(h.length, StringToType(h.name), h.sequenceNumber, h.timestamp, headerAndPayload.1);
        return;
      }
      CStrSame(BAD_REQUEST);
      p := new Packet(NO_TYPE, BAD_REQUEST, now);
    }
  }
}
