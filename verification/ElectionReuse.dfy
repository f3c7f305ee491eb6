/**
 * Runs from the start that need the assumptions: a join after a departure hands out a live replica's id,
 * and a crash of the leader catches two newcomers.
 */
module ElectionReuse {
  import opened Election
  import opened ElectionSafety
  import opened ElectionJoin
  import opened ElectionRuns
  import opened ElectionTraces
  import opened ElectionExact

  // ----- states written as lists: process k is entry k -----

  function State(nodes: seq<Node>): System {
    System(map k: nat | k < |nodes| :: nodes[k], map[], [])
  }

  function Replica(id: int, peers: seq<Info>, handlers: set<nat>): Node {
    Node(true, false, id, peers, [], NoReply, handlers, {}, {ORIGIN}, Accepting, false, false, false)
  }

  function Leader(peers: seq<Info>, handlers: set<nat>): Node {
    NewNode(true, Accepting).(peers := peers, handlers := handlers)
  }

  lemma OpenOne(info: Info, closed: set<nat>)
    ensures Open([info], closed) == if info.node in closed then [] else [info]
  {
    assert [info][..0] == [];
  }

  lemma OpenSecond(x: Info, y: Info, closed: set<nat>)
    requires x.node in closed && y.node !in closed
    ensures Open([x, y], closed) == [y]
  {
    assert [x, y][..1] == [x];
    OpenOne(x, closed);
  }

  /** The effect of a step that changes entry n. */
  lemma PutState(nodes: seq<Node>, n: nat, node: Node)
    requires n < |nodes|
    ensures Put(State(nodes), n, node) == State(nodes[n := node])
  {
    assert Put(State(nodes), n, node).nodes == State(nodes[n := node]).nodes;
  }

  lemma JoinState(nodes: seq<Node>, after: seq<Node>)
    requires nodes != [] && nodes[0].backlog == [] && nodes[0].alive && nodes[0].leader
    requires after == nodes[0 := nodes[0].(backlog := [Info(|nodes|, -1)])] + [NewNode(false, AwaitingState(0))]
    ensures Goes(State(nodes), Join(|nodes|, 0), State(after))
  {
    assert [] + [Info(|nodes|, -1)] == [Info(|nodes|, -1)];
    assert Apply(State(nodes), Join(|nodes|, 0)).nodes == State(after).nodes;
  }

  /** The leader accepts process h and hands out an id. */
  lemma AcceptState(nodes: seq<Node>, open: seq<Info>, h: nat, after: seq<Node>)
    requires 0 < h < |nodes|
    requires nodes[0].alive && nodes[0].leader && nodes[0].phase.Accepting? && nodes[0].backlog == [Info(h, -1)]
    requires nodes[h].phase == AwaitingState(0)
    requires open == Open(nodes[0].peers, nodes[0].closed)
    requires forall k :: 0 < k < |nodes| && nodes[k].alive ==> GivenId(nodes[k]) != |open|
    requires
      after == nodes[0 := nodes[0].(backlog := [], peers := open + [Info(h, |open|)], handlers := nodes[0].handlers + {h})]
                    [h := nodes[h].(reply := Replicas(|open|, open))]
    ensures Goes(State(nodes), Accept(0), State(after))
  {
    var node := nodes[0].(backlog := [], peers := open + [Info(h, |open|)], handlers := nodes[0].handlers + {h});
    assert [Info(h, -1)][1..] == [];
    PutState(nodes, 0, node);
    PutState(nodes[0 := node], h, nodes[h].(reply := Replicas(|open|, open)));
    assert DoAccept(State(nodes), 0) == Put(Put(State(nodes), 0, node), h, nodes[h].(reply := Replicas(|open|, open)));
  }

  /** A replica accepts the hello of another one. */
  lemma HelloState(nodes: seq<Node>, n: nat, hello: Info, after: seq<Node>)
    requires 0 < n < |nodes| && hello.node < |nodes|
    requires nodes[n].alive && !nodes[n].leader && nodes[n].phase.Accepting?
    requires nodes[n].backlog == [hello] && nodes[n].closed == {}
    requires Open(nodes[n].peers, {}) == nodes[n].peers
    requires after == nodes[n := nodes[n].(backlog := [], peers := nodes[n].peers + [hello],
                                           handlers := nodes[n].handlers + {hello.node})]
    ensures Goes(State(nodes), Accept(n), State(after))
  {
    assert [hello][1..] == [];
    PutState(nodes, n, after[n]);
    assert DoAccept(State(nodes), n) == Put(State(nodes), n, after[n]);
  }

  lemma ReceiveNone(nodes: seq<Node>, n: nat, id: int, after: seq<Node>)
    requires n < |nodes| && nodes[n] == NewNode(false, AwaitingState(0)).(reply := Replicas(id, []))
    requires after == nodes[n := Replica(id, [], {0})]
    ensures Goes(State(nodes), ReceiveState(n), State(after))
  {
    var s := State(nodes);
    assert Nodes([]) == {};
    assert Reachable(s, []) == [];
    assert DoReceiveState(s, n).nodes[n] == Replica(id, [], {0});
    assert DoReceiveState(s, n).nodes == State(after).nodes;
  }

  lemma ReceiveOne(nodes: seq<Node>, n: nat, id: int, info: Info, after: seq<Node>)
    requires n < |nodes| && info.node < |nodes| && info.node != n && nodes[info.node].alive
    requires nodes[n] == NewNode(false, AwaitingState(0)).(reply := Replicas(id, [info]))
    requires
      after == nodes[n := Replica(id, [info], {0, info.node})]
                    [info.node := nodes[info.node].(backlog := nodes[info.node].backlog + [Info(n, id)])]
    ensures Goes(State(nodes), ReceiveState(n), State(after))
  {
    var s := State(nodes);
    assert [info][..0] == [];
    assert Reachable(s, [info]) == [info];
    assert [info][0].node in Nodes([info]);
    assert Nodes([info]) == {info.node};
    assert {0} + {info.node} == {0, info.node};
    assert DoReceiveState(s, n).nodes[n] == Replica(id, [info], {0, info.node});
    assert DoReceiveState(s, n).nodes == State(after).nodes;
  }

  lemma CrashState(nodes: seq<Node>, n: nat, after: seq<Node>)
    requires 0 < n < |nodes| && nodes[n].alive && after == nodes[n := nodes[n].(alive := false)]
    ensures Goes(State(nodes), Crash(n), State(after))
  {
    PutState(nodes, n, after[n]);
  }

  lemma CloseState(nodes: seq<Node>, n: nat, p: nat, after: seq<Node>)
    requires n < |nodes| && p < |nodes| && nodes[n].alive && !nodes[p].alive
    requires p in nodes[n].handlers && p !in nodes[n].closed
    requires after == nodes[n := nodes[n].(closed := nodes[n].closed + {p},
                                           startElection := nodes[n].startElection || p in nodes[n].toLeader)]
    ensures Goes(State(nodes), Close(n, p), State(after))
  {
    PutState(nodes, n, after[n]);
  }

  // ----- the states of the run -----

  function Hello1(): seq<Node> {
    [NewNode(true, Accepting).(backlog := [Info(1, -1)]), NewNode(false, AwaitingState(0))]
  }

  function Given1(): seq<Node> {
    [Leader([Info(1, 0)], {1}), NewNode(false, AwaitingState(0)).(reply := Replicas(0, []))]
  }

  function Joined1(): seq<Node> {
    [Leader([Info(1, 0)], {1}), Replica(0, [], {0})]
  }

  function Hello2(): seq<Node> {
    [Leader([Info(1, 0)], {1}).(backlog := [Info(2, -1)]),
     Replica(0, [], {0}),
     NewNode(false, AwaitingState(0))]
  }

  function Given2(): seq<Node> {
    [Leader([Info(1, 0), Info(2, 1)], {1, 2}),
     Replica(0, [], {0}),
     NewNode(false, AwaitingState(0)).(reply := Replicas(1, [Info(1, 0)]))]
  }

  function Received2(): seq<Node> {
    [Leader([Info(1, 0), Info(2, 1)], {1, 2}),
     Replica(0, [], {0}).(backlog := [Info(2, 1)]),
     Replica(1, [Info(1, 0)], {0, 1})]
  }

  function Joined2(): seq<Node> {
    [Leader([Info(1, 0), Info(2, 1)], {1, 2}),
     Replica(0, [Info(2, 1)], {0, 2}),
     Replica(1, [Info(1, 0)], {0, 1})]
  }

  function Crashed(): seq<Node> {
    [Leader([Info(1, 0), Info(2, 1)], {1, 2}),
     Replica(0, [Info(2, 1)], {0, 2}).(alive := false),
     Replica(1, [Info(1, 0)], {0, 1})]
  }

  function Departed(): seq<Node> {
    [Leader([Info(1, 0), Info(2, 1)], {1, 2}).(closed := {1}),
     Replica(0, [Info(2, 1)], {0, 2}).(alive := false),
     Replica(1, [Info(1, 0)], {0, 1})]
  }

  function Hello3(): seq<Node> {
    [Leader([Info(1, 0), Info(2, 1)], {1, 2}).(closed := {1}, backlog := [Info(3, -1)]),
     Replica(0, [Info(2, 1)], {0, 2}).(alive := false),
     Replica(1, [Info(1, 0)], {0, 1}),
     NewNode(false, AwaitingState(0))]
  }

  // ----- the runs -----

  lemma StepOn(before: seq<Node>, a: Action, after: seq<Node>)
    requires CanReach(INITIAL_SYSTEM, State(before)) && Goes(State(before), a, State(after))
    ensures CanReach(INITIAL_SYSTEM, State(after))
  {
    OneMore(INITIAL_SYSTEM, State(before), a, State(after));
  }

  /** Replica 1 joins and gets the id 0. */
  lemma FirstJoins()
    ensures CanReach(INITIAL_SYSTEM, State(Hello1())) && CanReach(INITIAL_SYSTEM, State(Given1()))
    ensures CanReach(INITIAL_SYSTEM, State(Joined1()))
  {
    var nodes := [NewNode(true, Accepting)];
    Stay(INITIAL_SYSTEM);
    assert INITIAL_SYSTEM.nodes == State(nodes).nodes;
    JoinState(nodes, Hello1());
    StepOn(nodes, Join(1, 0), Hello1());
    assert [] + [Info(1, 0)] == [Info(1, 0)] && {} + {1} == {1};
    AcceptState(Hello1(), [], 1, Given1());
    StepOn(Hello1(), Accept(0), Given1());
    ReceiveNone(Given1(), 1, 0, Joined1());
    StepOn(Given1(), ReceiveState(1), Joined1());
  }

  /** Replica 2 joins and gets the id 1. */
  lemma SecondGetsId()
    ensures CanReach(INITIAL_SYSTEM, State(Given2()))
  {
    FirstJoins();
    JoinState(Joined1(), Hello2());
    StepOn(Joined1(), Join(2, 0), Hello2());
    OpenOne(Info(1, 0), {});
    assert [Info(1, 0)] + [Info(2, 1)] == [Info(1, 0), Info(2, 1)] && {1} + {2} == {1, 2};
    AcceptState(Hello2(), [Info(1, 0)], 2, Given2());
    StepOn(Hello2(), Accept(0), Given2());
  }

  lemma SecondJoins()
    ensures CanReach(INITIAL_SYSTEM, State(Joined2()))
  {
    SecondGetsId();
    assert [] + [Info(2, 1)] == [Info(2, 1)] && {0} + {2} == {0, 2};
    ReceiveOne(Given2(), 2, 1, Info(1, 0), Received2());
    StepOn(Given2(), ReceiveState(2), Received2());
    HelloState(Received2(), 1, Info(2, 1), Joined2());
    StepOn(Received2(), Accept(1), Joined2());
  }

  /** Replica 1 crashes, the leader notices, and replica 3 says hello. */
  lemma FirstLeaves()
    ensures CanReach(INITIAL_SYSTEM, State(Hello3()))
  {
    SecondJoins();
    CrashState(Joined2(), 1, Crashed());
    StepOn(Joined2(), Crash(1), Crashed());
    assert {} + {1} == {1};
    CloseState(Crashed(), 0, 1, Departed());
    StepOn(Crashed(), Close(0, 1), Departed());
    JoinState(Departed(), Hello3());
    StepOn(Departed(), Join(3, 0), Hello3());
  }

  /** The leader's vector has one open entry, and replica 2 is alive with the id 1. */
  lemma IdInUse()
    ensures
      var s := State(Hello3());
      && ORIGIN in s.nodes && Live(s, ORIGIN) && Enabled(s, Accept(ORIGIN)) && !FreshId(s, ORIGIN)
      && Live(s, s.nodes[ORIGIN].backlog[0].node)
  {
    var s := State(Hello3());
    OpenSecond(Info(1, 0), Info(2, 1), {1});
    assert s.nodes[2].id == 1 && s.nodes[2].reply.NoReply?;
  }

  /** A replica joins after another one has left, and in the end two live replicas lead. */
  lemma TwoLeaders()
    ensures exists run, u, n, m :: RunTo(run, u) && TwoLead(u, n, m)
  {
    var s := State(Hello3());
    FirstLeaves();
    IdInUse();
    ReachableByRun(s);
    var run :| ReachedBy(run, s);
    FreshIdExactly(run);
    var next := Apply(s, Accept(ORIGIN));
    var u :| CanReach(next, u) && !OneLeaderIn(u);
    OneMoreAction(run, s, Accept(ORIGIN));
    ReachByRun(run + [Accept(ORIGIN)], next, u);
    var longer :| RunTo(longer, u);
    var n, m :| Live(u, n) && Live(u, m) && u.nodes[n].leader && u.nodes[m].leader && n != m;
    assert TwoLead(u, n, m);
  }

  function TwoHellos(): seq<Node> {
    [NewNode(true, Accepting).(backlog := [Info(1, -1), Info(2, -1)]),
     NewNode(false, AwaitingState(0)),
     NewNode(false, AwaitingState(0))]
  }

  lemma TwoSayHello() returns (run: seq<Action>)
    ensures ReachedBy(run, State(TwoHellos()))
  {
    var s0, s := State(Hello1()), State(TwoHellos());
    FirstJoins();
    assert [Info(1, -1)] + [Info(2, -1)] == [Info(1, -1), Info(2, -1)];
    assert Apply(s0, Join(2, 0)).nodes == s.nodes;
    OneMore(INITIAL_SYSTEM, s0, Join(2, 0), s);
    ReachableByRun(s);
    run :| ReachedBy(run, s);
  }

  /** Two newcomers say hello and the leader crashes: both of them become leader. */
  lemma TwoLeadersByCrash()
    ensures exists run, u :: RunTo(run, u) && TwoLead(u, 1, 2)
  {
    var s := State(TwoHellos());
    var run := TwoSayHello();
    DisciplinedAtOrigin(run);
    CrashBeforeAnswerSplits(run, 1, 2);
    var next := Apply(s, Crash(ORIGIN));
    var u :| CanReach(next, u) && TwoLead(u, 1, 2);
    OneMoreAction(run, s, Crash(ORIGIN));
    ReachByRun(run + [Crash(ORIGIN)], next, u);
    var longer :| RunTo(longer, u);
  }
}
