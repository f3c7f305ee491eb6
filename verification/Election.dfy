/**
 * Joining, crashing and electing among the replica managers, as a transition system.  A process is
 * named by its address; process ORIGIN is the one started as leader, and keeps the id -1.
 * A smaller id is "greater" in an election.
 */
module Election {

  const ORIGIN: nat := 0

  /** A ReplicaInfo as some process records it. */
  datatype Info = Info(node: nat, id: int)

  datatype Message =
    | ElectionMsg(id: int)
    | AnswerMsg(lost: bool)    // "Lost" or "Won"
    | CoordinatorMsg

  /** The REPLICAS packet: the id for the new replica, and the replicas it has to connect to. */
  datatype Reply = NoReply | Replicas(id: int, replicas: seq<Info>)

  datatype Phase =
    | AwaitingState(to: nat) // runStartHandshake has said hello to `to` and waits for REPLICAS
    | Accepting              // the loop that accepts new connections
    | Electing(next: nat)    // sendElection looks at entry `next` of the vector
    | AwaitingAnswer(next: nat)
    | Deciding               // the sleep, and the test of lostElection
    | Resetting              // about to clear both flags

  datatype Node = Node(
    alive: bool,
    leader: bool,
    id: int,
    peers: seq<Info>,        // m_replicasVector
    backlog: seq<Info>,      // connections that wait to be accepted, with their NEW_REPLICA
    reply: Reply,
    handlers: set<nat>,      // peers whose connection has a ReplicaHandler
    closed: set<nat>,        // those whose connection was seen to end
    toLeader: set<nat>,      // those with m_isConnectedToLeader set
    phase: Phase,
    startElection: bool,
    lostElection: bool,
    answered: bool)          // the condition variable was notified

  datatype System = System(
    nodes: map<nat, Node>,
    links: map<(nat, nat), seq<Message>>,
    elected: seq<Info>)      // history: who became leader, in order

  function NewNode(leader: bool, phase: Phase): Node {
    Node(true, leader, -1, [], [], NoReply, {}, {}, {}, phase, false, false, false)
  }

  const INITIAL_SYSTEM := System(map[ORIGIN := NewNode(true, Accepting)], map[], [])

  datatype Action =
    | Join(n: nat, leader: nat)
    | Accept(n: nat)
    | ReceiveState(n: nat)
    | LoseLeader(n: nat)
    | Crash(n: nat)
    | Deliver(from: nat, to: nat)
    | Close(n: nat, peer: nat)
    | Begin(n: nat)
    | Next(n: nat)
    | Wake(n: nat)
    | Decide(n: nat)
    | Reset(n: nat)

  function Link(s: System, a: nat, b: nat): seq<Message> {
    if (a, b) in s.links then s.links[(a, b)] else []
  }

  function Push(s: System, a: nat, b: nat, m: Message): System {
    s.(links := s.links[(a, b) := Link(s, a, b) + [m]])
  }

  function Put(s: System, n: nat, node: Node): System {
    s.(nodes := s.nodes[n := node])
  }

  /** removeClosedConnections */
  function Open(peers: seq<Info>, closed: set<nat>): seq<Info> {
    if peers == [] then []
    else
      Open(peers[..|peers| - 1], closed)
      + if peers[|peers| - 1].node in closed then [] else [peers[|peers| - 1]]
  }

  predicate Live(s: System, n: nat) {
    n in s.nodes && s.nodes[n].alive
  }

  predicate Enabled(s: System, a: Action) {
    match a
    case Join(n, l) => n !in s.nodes && Live(s, l) && s.nodes[l].leader
    case Accept(n) => Live(s, n) && s.nodes[n].phase.Accepting? && s.nodes[n].backlog != []
                      && s.nodes[n].backlog[0].node in s.nodes
    case ReceiveState(n) => Live(s, n) && s.nodes[n].phase.AwaitingState? && s.nodes[n].reply.Replicas?
    case LoseLeader(n) => Live(s, n) && s.nodes[n].phase.AwaitingState? && s.nodes[n].reply.NoReply?
                          && s.nodes[n].phase.to in s.nodes && !s.nodes[s.nodes[n].phase.to].alive
    case Crash(n) => Live(s, n)
    case Deliver(a, b) => Live(s, b) && a in s.nodes[b].handlers && a !in s.nodes[b].closed && Link(s, a, b) != []
    case Close(n, p) => Live(s, n) && p in s.nodes[n].handlers && p !in s.nodes[n].closed
                        && p in s.nodes && !s.nodes[p].alive && Link(s, p, n) == []
    case Begin(n) => Live(s, n) && s.nodes[n].phase.Accepting? && s.nodes[n].startElection
    case Next(n) => Live(s, n) && s.nodes[n].phase.Electing?
    case Wake(n) => Live(s, n) && s.nodes[n].phase.AwaitingAnswer? && s.nodes[n].answered
    case Decide(n) => Live(s, n) && s.nodes[n].phase.Deciding?
    case Reset(n) => Live(s, n) && s.nodes[n].phase.Resetting?
  }

  /** A new process connects to the leader and says hello, without an id. */
  function DoJoin(s: System, n: nat, l: nat): System
    requires Enabled(s, Join(n, l))
  {
    var leader := s.nodes[l];
    s.(nodes := s.nodes[l := leader.(backlog := leader.backlog + [Info(n, -1)])][n := NewNode(false, AwaitingState(l))])
  }

  /**
   * answerStartHandshake, after closed connections are removed; a leader hands out an id.  A replica that
   * is past its own handshake ignores the id.
   */
  function DoAccept(s: System, n: nat): System
    requires Enabled(s, Accept(n))
  {
    var node := s.nodes[n];
    var hello := node.backlog[0];
    var open := Open(node.peers, node.closed);
    var info := if node.leader then Info(hello.node, |open|) else hello;
    var s1 := Put(s, n, node.(backlog := node.backlog[1..], peers := open + [info],
                              handlers := node.handlers + {hello.node}));
    if node.leader && s1.nodes[hello.node].phase == AwaitingState(n) then
      Put(s1, hello.node, s1.nodes[hello.node].(reply := Replicas(|open|, open)))
    else s1
  }

  function Nodes(infos: seq<Info>): set<nat> {
    set i | 0 <= i < |infos| :: infos[i].node
  }

  /** The replicas that can still be connected to. */
  function Reachable(s: System, infos: seq<Info>): seq<Info> {
    if infos == [] then []
    else
      Reachable(s, infos[..|infos| - 1])
      + if Live(s, infos[|infos| - 1].node) then [infos[|infos| - 1]] else []
  }

  /** The rest of runStartHandshake: the new replica connects and says hello to every other one. */
  function DoReceiveState(s: System, n: nat): System
    requires Enabled(s, ReceiveState(n))
  {
    var node, reply := s.nodes[n], s.nodes[n].reply;
    var peers := Reachable(s, reply.replicas);
    var joined := node.(id := reply.id, peers := node.peers + peers, reply := NoReply, phase := Accepting,
                        handlers := node.handlers + {node.phase.to} + Nodes(peers),
                        toLeader := node.toLeader + {node.phase.to});
    s.(nodes := map m | m in s.nodes ::
         if m == n then joined
         else if m in Nodes(peers) then s.nodes[m].(backlog := s.nodes[m].backlog + [Info(n, reply.id)])
         else s.nodes[m])
  }

  /**
   * receiveState without a packet, because the leader has crashed: the id stays -1, and nobody else is
   * known.  The handler of the lost connection still counts it as one to the leader.
   */
  function DoLoseLeader(s: System, n: nat): System
    requires Enabled(s, LoseLeader(n))
  {
    var node := s.nodes[n];
    Put(s, n, node.(phase := Accepting, handlers := node.handlers + {node.phase.to},
                    toLeader := node.toLeader + {node.phase.to}))
  }

  /** ReplicaHandler::run, one packet. */
  function DoDeliver(s: System, a: nat, b: nat): System
    requires Enabled(s, Deliver(a, b))
  {
    var node := s.nodes[b];
    var m := Link(s, a, b)[0];
    var s1 := s.(links := s.links[(a, b) := Link(s, a, b)[1..]]);
    match m
    case ElectionMsg(id) =>
      var won := a != b && id < node.id;
      Push(Put(s1, b, node.(startElection := true)), b, a, AnswerMsg(!won))
    case CoordinatorMsg =>
      Put(s1, b, node.(toLeader := node.toLeader + {a}))
    case AnswerMsg(lost) =>
      Put(s1, b, node.(lostElection := node.lostElection || lost, answered := node.phase.AwaitingAnswer?))
  }

  /** ReplicaHandler::run, when the connection is lost. */
  function DoClose(s: System, n: nat, p: nat): System
    requires Enabled(s, Close(n, p))
  {
    var node := s.nodes[n];
    Put(s, n, node.(closed := node.closed + {p}, startElection := node.startElection || p in node.toLeader))
  }

  function DoBegin(s: System, n: nat): System
    requires Enabled(s, Begin(n))
  {
    var node := s.nodes[n];
    Put(s, n, node.(peers := Open(node.peers, node.closed), phase := Electing(0)))
  }

  /** One entry of the loop in sendElection. */
  function DoNext(s: System, n: nat): System
    requires Enabled(s, Next(n))
  {
    var node := s.nodes[n];
    var i := node.phase.next;
    if i >= |node.peers| then Put(s, n, node.(phase := Deciding))
    else if node.peers[i].node != n && node.peers[i].id < node.id then
      Push(Put(s, n, node.(phase := AwaitingAnswer(i))), n, node.peers[i].node, ElectionMsg(node.id))
    else Put(s, n, node.(phase := Electing(i + 1)))
  }

  function DoWake(s: System, n: nat): System
    requires Enabled(s, Wake(n))
  {
    var node := s.nodes[n];
    Put(s, n, node.(answered := false,
                    phase := if node.lostElection then Deciding else Electing(node.phase.next + 1)))
  }

  function SendCoordinator(s: System, n: nat, infos: seq<Info>): System {
    if infos == [] then s
    else Push(SendCoordinator(s, n, infos[..|infos| - 1]), n, infos[|infos| - 1].node, CoordinatorMsg)
  }

  function DoDecide(s: System, n: nat): System
    requires Enabled(s, Decide(n))
  {
    var node := s.nodes[n];
    if node.lostElection then Put(s, n, node.(phase := Resetting))
    else
      SendCoordinator(Put(s, n, node.(leader := true, phase := Resetting)), n, node.peers)
        .(elected := s.elected + [Info(n, node.id)])
  }

  function DoReset(s: System, n: nat): System
    requires Enabled(s, Reset(n))
  {
    Put(s, n, s.nodes[n].(startElection := false, lostElection := false, phase := Accepting))
  }

  function Apply(s: System, a: Action): System
    requires Enabled(s, a)
  {
    match a
    case Join(n, l) => DoJoin(s, n, l)
    case Accept(n) => DoAccept(s, n)
    case ReceiveState(n) => DoReceiveState(s, n)
    case LoseLeader(n) => DoLoseLeader(s, n)
    case Crash(n) => Put(s, n, s.nodes[n].(alive := false))
    case Deliver(a, b) => DoDeliver(s, a, b)
    case Close(n, p) => DoClose(s, n, p)
    case Begin(n) => DoBegin(s, n)
    case Next(n) => DoNext(s, n)
    case Wake(n) => DoWake(s, n)
    case Decide(n) => DoDecide(s, n)
    case Reset(n) => DoReset(s, n)
  }

  // ----- the assumed environment -----

  /** No live replica is in the middle of a handshake. */
  predicate Quiet(s: System) {
    forall n :: n in s.nodes && n != ORIGIN && s.nodes[n].alive ==> Joined(s.nodes[n])
  }

  /** The node's part of every handshake is over. */
  predicate Joined(node: Node) {
    node.backlog == [] && !node.phase.AwaitingState? && node.reply.NoReply?
  }

  /** The id a process has, or is about to receive. */
  function GivenId(node: Node): int {
    if node.reply.Replicas? then node.reply.id else node.id
  }

  /** The id that accepting the next connection hands out is not held by a live replica. */
  predicate FreshId(s: System, n: nat)
    requires n in s.nodes
  {
    var id := |Open(s.nodes[n].peers, s.nodes[n].closed)|;
    forall m :: m in s.nodes && m != ORIGIN && s.nodes[m].alive ==> GivenId(s.nodes[m]) != id
  }

  ghost predicate Knows(infos: seq<Info>, m: nat) {
    exists i :: 0 <= i < |infos| && infos[i].node == m
  }

  function Offered(node: Node): seq<Info> {
    if node.reply.Replicas? then node.reply.replicas else []
  }

  /** The node is connected to `m` in its vector, or was told to connect. */
  ghost predicate Sees(node: Node, m: nat) {
    Knows(node.peers, m) || Knows(Offered(node), m)
  }

  ghost predicate Backup(s: System, n: nat) {
    n != ORIGIN && Live(s, n)
  }

  /** Process m was given a lower id than process n, which sees it. */
  ghost predicate Before(s: System, m: nat, n: nat)
    requires n in s.nodes && m in s.nodes
  {
    GivenId(s.nodes[m]) < GivenId(s.nodes[n]) && Sees(s.nodes[n], m)
  }

  /** Of any two live backups, one is before the other. */
  ghost predicate Ordered(s: System) {
    forall n, m :: Backup(s, n) && Backup(s, m) && n != m ==> Before(s, m, n) || Before(s, n, m)
  }

  /**
   * What the environment has to grant for one leader: replicas join at the original leader only, and its
   * crash finds the backups in order.
   */
  ghost predicate Orderly(s: System, a: Action)
    requires Enabled(s, a)
  {
    (a.Join? ==> a.leader == ORIGIN) && (a == Crash(ORIGIN) ==> Ordered(s))
  }

  /**
   * And for all backups to know each other: the leader does not hand out an id that a live replica holds,
   * and its crash does not interrupt a handshake of a live replica.
   */
  predicate Disciplined(s: System, a: Action)
    requires Enabled(s, a)
  {
    match a
    case Join(n, l) => l == ORIGIN
    case Accept(n) => n == ORIGIN ==> FreshId(s, n)
    case Crash(n) => n == ORIGIN ==> Quiet(s)
    case _ => true
  }

  function After(actions: seq<Action>): System {
    if actions == [] then INITIAL_SYSTEM
    else
      var s := After(actions[..|actions| - 1]);
      var a := actions[|actions| - 1];
      if Enabled(s, a) then Apply(s, a) else s
  }

  /** A run in which every action can happen. */
  predicate IsRun(actions: seq<Action>) {
    actions == [] ||
      (IsRun(actions[..|actions| - 1]) && Enabled(After(actions[..|actions| - 1]), actions[|actions| - 1]))
  }

  ghost predicate IsOrderly(actions: seq<Action>)
    requires IsRun(actions)
  {
    actions == [] ||
      (IsOrderly(actions[..|actions| - 1])
       && Orderly(After(actions[..|actions| - 1]), actions[|actions| - 1]))
  }

  predicate IsDisciplined(actions: seq<Action>)
    requires IsRun(actions)
  {
    actions == [] ||
      (IsDisciplined(actions[..|actions| - 1])
       && Disciplined(After(actions[..|actions| - 1]), actions[|actions| - 1]))
  }
}
