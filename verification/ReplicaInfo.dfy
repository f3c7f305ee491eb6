/** The text form of replicas and of the REPLICAS packet that answers a hello. */
module ReplicaInfos {
  import opened Decimal
  import opened InputStream
  import opened StringUtils
  import opened Packets
  import opened Connections

  datatype ReplicaInfo = ReplicaInfo(id: int, ip: string, port: int) {
    predicate IsValid() {
      !(id < 0 && port < 0 && ip == "")
    }
  }

  const NO_REPLICA := ReplicaInfo(-1, "", -1)

  /** `atoi`: 0 when there is no number.  (A number that is no `int` is undefined in C.) */
  function Atoi(s: string): int {
    var r := ReadNumber(CStr(s));
    if r.Failed? then 0
    else
      var magnitude: int := r.value.1;
      if r.value.0 then -magnitude else magnitude
  }

  function Print(r: ReplicaInfo): string {
    IntToString(r.id) + " " + r.ip + " " + IntToString(r.port)
  }

  /** What `split` and the test for three parts make of a line. */
  function OfParts(parts: seq<string>): ReplicaInfo {
    if |parts| == 3 then ReplicaInfo(Atoi(parts[0]), parts[1], Atoi(parts[2])) else NO_REPLICA
  }

  function Parse(raw: string): ReplicaInfo {
    OfParts(Parts(CStr(raw), " "))
  }

  predicate Safe(r: ReplicaInfo) {
    ' ' !in r.ip && '\n' !in r.ip && '\0' !in r.ip
  }

  lemma AtoiBack(n: int)
    ensures Atoi(IntToString(n)) == n
  {
    IntStringShape(n);
    CStrSame(IntToString(n));
    assert IntToString(n) + "" == IntToString(n);
    ReadNumberBack(n, "");
  }

  lemma NoBlank(n: int)
    ensures ' ' !in IntToString(n) && '\n' !in IntToString(n) && '\0' !in IntToString(n)
  {
    IntStringShape(n);
  }

  lemma PrintIsJoined(r: ReplicaInfo)
    ensures Print(r) == Joined([IntToString(r.id), r.ip, IntToString(r.port)], " ")
  {
    var parts := [IntToString(r.id), r.ip, IntToString(r.port)];
    assert parts[1..] == [r.ip, IntToString(r.port)];
    assert parts[1..][1..] == [IntToString(r.port)];
    assert Joined(parts[1..], " ") == r.ip + " " + IntToString(r.port);
  }

  lemma PrintClean(r: ReplicaInfo)
    requires Safe(r)
    ensures Print(r) != "" && '\n' !in Print(r) && '\0' !in Print(r)
  {
    NoBlank(r.id);
    NoBlank(r.port);
  }

  /** `deserialize` undoes `serialize`, for an empty address too. */
  lemma ParseBack(r: ReplicaInfo)
    requires Safe(r)
    ensures Parse(Print(r)) == r
  {
    PrintClean(r);
    CStrSame(Print(r));
    NoBlank(r.id);
    NoBlank(r.port);
    PrintIsJoined(r);
    SplitUndoesJoin([IntToString(r.id), r.ip, IntToString(r.port)], ' ');
    AtoiBack(r.id);
    AtoiBack(r.port);
  }

  // ----- lists -----

  function PrintAll(replicas: seq<ReplicaInfo>): string {
    Joined(Mapped(replicas, Print), "\n")
  }

  function ParsedAll(lines: seq<string>): (replicas: seq<ReplicaInfo>)
    ensures |replicas| == |lines|
    ensures forall k :: 0 <= k < |lines| ==> replicas[k] == Parse(lines[k])
  {
    seq(|lines|, k requires 0 <= k < |lines| => Parse(lines[k]))
  }

  function ParseAll(payload: string): seq<ReplicaInfo> {
    ParsedAll(Parts(payload, "\n"))
  }

  /** ReplicaManager::serialize */
  method SerializeReplicas(replicas: seq<ReplicaInfo>) returns (serial: string)
    ensures serial == PrintAll(replicas)
  {
    if |replicas| == 0 {
      return "";
    }
    serial := Print(replicas[0]);
    var i: nat := 1;
    PrintAllOne(replicas);
    while i < |replicas|
      invariant 1 <= i <= |replicas|
      invariant serial == PrintAll(replicas[..i])
    {
      PrintAllStep(replicas, i);
      var line := "\n" + Print(replicas[i]);
      serial := serial + line;
      i := i + 1;
    }
    assert replicas[..i] == replicas;
  }

  lemma PrintAllOne(replicas: seq<ReplicaInfo>)
    requires replicas != []
    ensures PrintAll(replicas[..1]) == Print(replicas[0])
  {
    assert Mapped(replicas[..1], Print) == [Print(replicas[0])];
  }

  lemma PrintAllStep(replicas: seq<ReplicaInfo>, i: nat)
    requires 0 < i < |replicas|
    ensures PrintAll(replicas[..i + 1]) == PrintAll(replicas[..i]) + ("\n" + Print(replicas[i]))
  {
    PrintAllSnoc(replicas[..i], replicas[i]);
    assert replicas[..i + 1] == replicas[..i] + [replicas[i]];
  }

  lemma PrintAllSnoc(front: seq<ReplicaInfo>, r: ReplicaInfo)
    requires front != []
    ensures PrintAll(front + [r]) == PrintAll(front) + ("\n" + Print(r))
  {
    assert Mapped(front + [r], Print) == Mapped(front, Print) + [Print(r)];
    JoinedSnoc(Mapped(front, Print), "\n", Print(r));
    AppendedLine(PrintAll(front), Print(r));
  }

  lemma AppendedLine(s: string, line: string)
    ensures s + ("\n" + line) == s + "\n" + line
  {
  }

  /** ReplicaManager::deserialize */
  method DeserializeReplicas(payload: string) returns (replicas: seq<ReplicaInfo>)
    ensures replicas == ParseAll(payload)
  {
    replicas := [];
    var splits := Split(payload, "\n");
    for i := 0 to |splits|
      invariant replicas == ParsedAll(splits[..i])
    {
      assert ParsedAll(splits[..i + 1]) == ParsedAll(splits[..i]) + [Parse(splits[i])];
      replicas := replicas + [Parse(splits[i])];
    }
    assert splits[..|splits|] == splits;
  }

  lemma ListBack(replicas: seq<ReplicaInfo>)
    requires replicas != []
    requires forall k :: 0 <= k < |replicas| ==> Safe(replicas[k])
    ensures ParseAll(PrintAll(replicas)) == replicas
  {
    var lines := Mapped(replicas, Print);
    forall k | 0 <= k < |lines| ensures '\n' !in lines[k] {
      PrintClean(replicas[k]);
    }
    SplitUndoesJoin(lines, '\n');
    forall k | 0 <= k < |lines| ensures Parse(lines[k]) == replicas[k] {
      ParseBack(replicas[k]);
    }
  }

  // ----- the REPLICAS packet -----

  /** sendState: the id for the newcomer is the number of replicas known. */
  function StatePayload(replicas: seq<ReplicaInfo>): string {
    IntToString(|replicas|) + "\n" + PrintAll(replicas)
  }

  /** receiveState, on the payload of the answer: the id taken over, and the replicas to connect to. */
  function ReceivedState(payload: string, id: int): (int, seq<ReplicaInfo>) {
    if payload == "" then (id, [])
    else
      var idAndReplicas := SplitFirst(payload, "\n");
      (Atoi(idAndReplicas.0), if idAndReplicas.1 != "" then ParseAll(idAndReplicas.1) else [])
  }

  /** What the leader sends is what the newcomer takes over, for every list and the empty one too. */
  lemma StateBack(replicas: seq<ReplicaInfo>, id: int)
    requires forall k :: 0 <= k < |replicas| ==> Safe(replicas[k])
    ensures ReceivedState(StatePayload(replicas), id) == (|replicas|, replicas)
  {
    NoBlank(|replicas|);
    SplitFirstAtChar(IntToString(|replicas|), '\n', PrintAll(replicas));
    AtoiBack(|replicas|);
    if replicas != [] {
      PrintClean(replicas[0]);
      JoinedNotEmpty(Mapped(replicas, Print), "\n");
      ListBack(replicas);
    }
  }

  /** A payload passes through a C string unharmed. */
  lemma StatePayloadClean(replicas: seq<ReplicaInfo>)
    requires forall k :: 0 <= k < |replicas| ==> Safe(replicas[k])
    ensures CStr(StatePayload(replicas)) == StatePayload(replicas)
  {
    var lines := Mapped(replicas, Print);
    forall k | 0 <= k < |lines| ensures '\0' !in lines[k] {
      PrintClean(replicas[k]);
    }
    JoinedClean(lines, "\n", '\0');
    NoBlank(|replicas|);
    CStrSame(StatePayload(replicas));
  }

  /** The REPLICAS packet, as the connection stamps it. */
  function StatePacket(replicas: seq<ReplicaInfo>, sequenceNumber: int, timestamp: nat): PacketData {
    TextPacket(REPLICAS, StatePayload(replicas), sequenceNumber, timestamp)
  }

  /** The newcomer takes over, through packet and connection, exactly the id and the list that were sent. */
  lemma StateArrives(replicas: seq<ReplicaInfo>, id: int, sequenceNumber: int, timestamp: nat, rest: string, now: nat)
    requires forall k :: 0 <= k < |replicas| ==> Safe(replicas[k])
    requires IsInt(sequenceNumber) && timestamp <= ULONG_MAX
    requires |Body(StatePacket(replicas, sequenceNumber, timestamp))| <= INT_MAX
    ensures
      var received := Receiving(Frame(StatePacket(replicas, sequenceNumber, timestamp)) + rest, now);
      && received.1 == rest && received.0.Received? && received.0.data.kind == REPLICAS
      && ReceivedState(received.0.data.payload, id) == (|replicas|, replicas)
  {
    StatePayloadClean(replicas);
    CStrIsPrefix(StatePayload(replicas));
    StateBack(replicas, id);
    ReceivingFrame(StatePacket(replicas, sequenceNumber, timestamp), rest, now);
  }
}
