/**
 * A run in which the original leader's crash interrupts a handshake: the next leader is not announced to the
 * replica of that handshake, records a wrong id for it, asks it in an election, and is answered "Won".
 */
module ElectionInterrupted {
  import opened Election
  import opened ElectionSafety
  import opened ElectionJoin
  import opened ElectionRuns
  import opened ElectionNews
  import opened ElectionTraces
  import opened ElectionReuse

  // ----- orderly runs -----

  ghost predicate OrderlyTo(run: seq<Action>, s: System) {
    IsRun(run) && IsOrderly(run) && After(run) == s
  }

  /** The state is reached by an orderly run from the start. */
  ghost predicate OrderlyReached(s: System) {
    exists run :: OrderlyTo(run, s)
  }

  lemma OrderlyStep(s: System, a: Action)
    requires OrderlyReached(s) && Enabled(s, a) && Orderly(s, a)
    ensures OrderlyReached(Apply(s, a))
  {
    var run :| OrderlyTo(run, s);
    assert (run + [a])[..|run|] == run;
    assert OrderlyTo(run + [a], Apply(s, a));
  }

  /** The rest of a run, as far as what the processes look like. */
  ghost predicate Shows(s: System, nodes: seq<Node>) {
    OrderlyReached(s) && s.nodes == State(nodes).nodes
  }

  lemma StepShows(s: System, before: seq<Node>, a: Action, after: seq<Node>)
    requires Shows(s, before) && Enabled(s, a) && !a.Join? && a != Crash(ORIGIN)
    requires Apply(s, a).nodes == State(after).nodes
    ensures Shows(Apply(s, a), after)
  {
    OrderlyStep(s, a);
  }

  // ----- steps of one process -----

  lemma PutShows(s: System, nodes: seq<Node>, n: nat, node: Node)
    requires s.nodes == State(nodes).nodes && n < |nodes|
    ensures Put(s, n, node).nodes == State(nodes[n := node]).nodes
  {
  }

  lemma CloseShows(s: System, nodes: seq<Node>, n: nat, p: nat, after: seq<Node>)
    requires Shows(s, nodes) && n < |nodes| && p < |nodes| && nodes[n].alive && !nodes[p].alive && Link(s, p, n) == []
    requires p in nodes[n].handlers && p !in nodes[n].closed
    requires after == nodes[n := nodes[n].(closed := nodes[n].closed + {p},
                                           startElection := nodes[n].startElection || p in nodes[n].toLeader)]
    ensures Enabled(s, Close(n, p)) && Shows(Apply(s, Close(n, p)), after) && Apply(s, Close(n, p)).links == s.links
  {
    PutShows(s, nodes, n, after[n]);
    StepShows(s, nodes, Close(n, p), after);
  }

  lemma BeginShows(s: System, nodes: seq<Node>, n: nat, after: seq<Node>)
    requires Shows(s, nodes) && n < |nodes| && nodes[n].alive && nodes[n].phase.Accepting? && nodes[n].startElection
    requires after == nodes[n := nodes[n].(peers := Open(nodes[n].peers, nodes[n].closed), phase := Electing(0))]
    ensures Enabled(s, Begin(n)) && Shows(Apply(s, Begin(n)), after) && Apply(s, Begin(n)).links == s.links
  {
    PutShows(s, nodes, n, after[n]);
    StepShows(s, nodes, Begin(n), after);
  }

  /** The first entry of the vector has a lower id. */
  lemma AskShows(s: System, nodes: seq<Node>, n: nat, after: seq<Node>)
    requires Shows(s, nodes) && n < |nodes| && nodes[n].alive && nodes[n].phase == Electing(0) && nodes[n].peers != []
    requires nodes[n].peers[0].node != n && nodes[n].peers[0].id < nodes[n].id
    requires after == nodes[n := nodes[n].(phase := AwaitingAnswer(0))]
    ensures Enabled(s, Next(n)) && Shows(Apply(s, Next(n)), after)
    ensures Apply(s, Next(n)).links == Push(s, n, nodes[n].peers[0].node, ElectionMsg(nodes[n].id)).links
  {
    PutShows(s, nodes, n, after[n]);
    StepShows(s, nodes, Next(n), after);
  }

  lemma EndShows(s: System, nodes: seq<Node>, n: nat)
    requires Shows(s, nodes) && n < |nodes| && nodes[n].alive && nodes[n].phase == Electing(0) && nodes[n].peers == []
    ensures Enabled(s, Next(n)) && Shows(Apply(s, Next(n)), nodes[n := nodes[n].(phase := Deciding)])
    ensures Apply(s, Next(n)).links == s.links
  {
    PutShows(s, nodes, n, nodes[n].(phase := Deciding));
    StepShows(s, nodes, Next(n), nodes[n := nodes[n].(phase := Deciding)]);
  }

  lemma DecideShows(s: System, nodes: seq<Node>, n: nat)
    requires Shows(s, nodes) && n < |nodes| && nodes[n].alive && nodes[n].phase.Deciding? && nodes[n].peers == []
    requires !nodes[n].lostElection
    ensures Enabled(s, Decide(n)) && Apply(s, Decide(n)).links == s.links
    ensures Shows(Apply(s, Decide(n)), nodes[n := nodes[n].(leader := true, phase := Resetting)])
  {
    var won := nodes[n].(leader := true, phase := Resetting);
    PutShows(s, nodes, n, won);
    assert SendCoordinator(Put(s, n, won), n, []) == Put(s, n, won);
    StepShows(s, nodes, Decide(n), nodes[n := won]);
  }

  lemma ResetShows(s: System, nodes: seq<Node>, n: nat)
    requires Shows(s, nodes) && n < |nodes| && nodes[n].alive && nodes[n].phase.Resetting?
    ensures Enabled(s, Reset(n)) && Apply(s, Reset(n)).links == s.links
    ensures Shows(Apply(s, Reset(n)),
                  nodes[n := nodes[n].(startElection := false, lostElection := false, phase := Accepting)])
  {
    var after := nodes[n := nodes[n].(startElection := false, lostElection := false, phase := Accepting)];
    PutShows(s, nodes, n, after[n]);
    StepShows(s, nodes, Reset(n), after);
  }

  /** With an empty vector the election is won at once. */
  lemma WinShows(s: System, nodes: seq<Node>, n: nat, after: seq<Node>) returns (t: System)
    requires Shows(s, nodes) && n < |nodes| && nodes[n].alive && nodes[n].phase == Electing(0) && nodes[n].peers == []
    requires !nodes[n].lostElection
    requires after == nodes[n := nodes[n].(leader := true, startElection := false, phase := Accepting)]
    ensures Shows(t, after) && t.links == s.links
  {
    EndShows(s, nodes, n);
    var nodes1 := nodes[n := nodes[n].(phase := Deciding)];
    DecideShows(Apply(s, Next(n)), nodes1, n);
    var nodes2 := nodes1[n := nodes1[n].(leader := true, phase := Resetting)];
    ResetShows(Apply(Apply(s, Next(n)), Decide(n)), nodes2, n);
    t := Apply(Apply(Apply(s, Next(n)), Decide(n)), Reset(n));
    assert after == nodes2[n := nodes2[n].(startElection := false, lostElection := false, phase := Accepting)];
  }

  /** A request is read, and answered. */
  lemma RequestShows(s: System, nodes: seq<Node>, a: nat, b: nat, id: int, after: seq<Node>)
    requires Shows(s, nodes) && a < |nodes| && b < |nodes| && a != b && nodes[b].alive
    requires a in nodes[b].handlers && a !in nodes[b].closed && Link(s, a, b) == [ElectionMsg(id)]
    requires after == nodes[b := nodes[b].(startElection := true)]
    ensures Enabled(s, Deliver(a, b)) && Shows(Apply(s, Deliver(a, b)), after)
    ensures
      var t := Apply(s, Deliver(a, b));
      && Link(t, a, b) == []
      && Link(t, b, a) == Link(s, b, a) + [AnswerMsg(!(id < nodes[b].id))]
  {
    PutShows(s.(links := s.links[(a, b) := []]), nodes, b, after[b]);
    StepShows(s, nodes, Deliver(a, b), after);
  }

  // ----- the handshakes -----

  /** Replica 1 got the id 0, and crashed before it could use it. */
  function Lost1(): Node {
    NewNode(false, AwaitingState(0)).(reply := Replicas(0, []), alive := false)
  }

  function Lost(): seq<Node> {
    [Leader([Info(1, 0)], {1}), Lost1()]
  }

  function LostHello2(): seq<Node> {
    [Leader([Info(1, 0)], {1}).(backlog := [Info(2, -1)]), Lost1(), NewNode(false, AwaitingState(0))]
  }

  function LostGiven2(): seq<Node> {
    [Leader([Info(1, 0), Info(2, 1)], {1, 2}), Lost1(),
     NewNode(false, AwaitingState(0)).(reply := Replicas(1, [Info(1, 0)]))]
  }

  function LostJoined2(): seq<Node> {
    [Leader([Info(1, 0), Info(2, 1)], {1, 2}), Lost1(), Replica(1, [], {0})]
  }

  function LostHello3(): seq<Node> {
    [Leader([Info(1, 0), Info(2, 1)], {1, 2}).(backlog := [Info(3, -1)]), Lost1(), Replica(1, [], {0}),
     NewNode(false, AwaitingState(0))]
  }

  /** What the original leader looks like in the end. */
  function Leader3(): Node {
    Leader([Info(1, 0), Info(2, 1), Info(3, 2)], {1, 2, 3})
  }

  /** What replica 3 looks like before it reads its id. */
  function Answered3(): Node {
    NewNode(false, AwaitingState(0)).(reply := Replicas(2, [Info(1, 0), Info(2, 1)]))
  }

  function LostGiven3(): seq<Node> {
    [Leader3(), Lost1(), Replica(1, [], {0}), Answered3()]
  }

  lemma OpenBoth(x: Info, y: Info)
    ensures Open([x, y], {}) == [x, y]
  {
    assert [x, y][..1] == [x];
    OpenOne(x, {});
  }

  /** Of the replicas that are offered the first is dead, and so may be the second one. */
  lemma ReachesSecond(s: System, x: Info, y: Info)
    requires !Live(s, x.node)
    ensures Reachable(s, [x]) == []
    ensures Reachable(s, [x, y]) == if Live(s, y.node) then [y] else []
  {
    assert [x][..0] == [] && [x, y][..1] == [x];
  }

  lemma ReceiveDead(nodes: seq<Node>, n: nat, id: int, info: Info, after: seq<Node>)
    requires n < |nodes| && info.node < |nodes| && !nodes[info.node].alive
    requires nodes[n] == NewNode(false, AwaitingState(0)).(reply := Replicas(id, [info]))
    requires after == nodes[n := Replica(id, [], {0})]
    ensures Goes(State(nodes), ReceiveState(n), State(after))
  {
    var s := State(nodes);
    ReachesSecond(s, info, info);
    assert Nodes([]) == {};
    assert DoReceiveState(s, n).nodes[n] == Replica(id, [], {0});
    assert DoReceiveState(s, n).nodes == State(after).nodes;
  }

  lemma FirstCrashes()
    ensures CanReach(INITIAL_SYSTEM, State(LostHello2()))
  {
    FirstJoins();
    CrashState(Given1(), 1, Lost());
    StepOn(Given1(), Crash(1), Lost());
    JoinState(Lost(), LostHello2());
    StepOn(Lost(), Join(2, 0), LostHello2());
  }

  lemma LeaderAnswersSecond()
    ensures Goes(State(LostHello2()), Accept(0), State(LostGiven2()))
  {
    OpenOne(Info(1, 0), {});
    assert [Info(1, 0)] + [Info(2, 1)] == [Info(1, 0), Info(2, 1)] && {1} + {2} == {1, 2};
    AcceptState(LostHello2(), [Info(1, 0)], 2, LostGiven2());
  }

  lemma FirstIsLost()
    ensures CanReach(INITIAL_SYSTEM, State(LostJoined2()))
  {
    FirstCrashes();
    LeaderAnswersSecond();
    StepOn(LostHello2(), Accept(0), LostGiven2());
    ReceiveDead(LostGiven2(), 2, 1, Info(1, 0), LostJoined2());
    StepOn(LostGiven2(), ReceiveState(2), LostJoined2());
  }

  /** Replica 3 is sent its id. */
  lemma ThirdIsAnswered()
    ensures CanReach(INITIAL_SYSTEM, State(LostGiven3()))
  {
    FirstIsLost();
    JoinState(LostJoined2(), LostHello3());
    StepOn(LostJoined2(), Join(3, 0), LostHello3());
    LeaderAnswersThird();
    StepOn(LostHello3(), Accept(0), LostGiven3());
  }

  lemma LeaderAnswersThird()
    ensures Goes(State(LostHello3()), Accept(0), State(LostGiven3()))
  {
    OpenBoth(Info(1, 0), Info(2, 1));
    assert [Info(1, 0), Info(2, 1)] + [Info(3, 2)] == [Info(1, 0), Info(2, 1), Info(3, 2)];
    assert {1, 2} + {3} == {1, 2, 3};
    AcceptState(LostHello3(), [Info(1, 0), Info(2, 1)], 3, LostGiven3());
  }

  // ----- the crash, and the election of replica 2 -----

  function Dead(): Node {
    Leader3().(alive := false)
  }

  /** Replica 2 as a leader that has noticed the crash. */
  function Leader2(): Node {
    Replica(1, [], {0}).(closed := {0}, leader := true)
  }

  function SecondLeads(): seq<Node> {
    [Dead(), Lost1(), Leader2(), Answered3()]
  }

  lemma ThirdSeesSecond()
    ensures Ordered(State(LostGiven3()))
  {
    var s := State(LostGiven3());
    assert Answered3().reply.replicas[1].node == 2;
    assert Sees(s.nodes[3], 2);
    forall n | Backup(s, n) ensures n == 2 || n == 3 {
      assert n < 4;
    }
  }

  lemma AnsweredIsReached()
    ensures OrderlyReached(State(LostGiven3()))
  {
    ThirdIsAnswered();
    ReachableByRun(State(LostGiven3()));
    var run :| ReachedBy(run, State(LostGiven3()));
    CalmRunInv(run);
    assert OrderlyTo(run, State(LostGiven3()));
  }

  lemma OriginCrashes() returns (s: System)
    ensures Shows(s, [Dead(), Lost1(), Replica(1, [], {0}), Answered3()]) && s.links == map[]
  {
    var nodes, before := LostGiven3(), State(LostGiven3());
    AnsweredIsReached();
    ThirdSeesSecond();
    OrderlyStep(before, Crash(ORIGIN));
    s := Apply(before, Crash(ORIGIN));
    WithoutLeader(before, nodes);
  }

  lemma WithoutLeader(s: System, nodes: seq<Node>)
    requires nodes == LostGiven3() && s == State(nodes)
    ensures Put(s, 0, Dead()).nodes == State([Dead(), Lost1(), Replica(1, [], {0}), Answered3()]).nodes
  {
    PutShows(s, nodes, 0, Dead());
    assert nodes[0 := Dead()] == [Dead(), Lost1(), Replica(1, [], {0}), Answered3()];
  }

  lemma SecondIsElected() returns (s: System)
    ensures Shows(s, SecondLeads()) && s.links == map[]
  {
    var s0 := OriginCrashes();
    var nodes0 := [Dead(), Lost1(), Replica(1, [], {0}), Answered3()];
    var closed := Replica(1, [], {0}).(closed := {0}, startElection := true);
    var nodes1 := [Dead(), Lost1(), closed, Answered3()];
    assert {} + {0} == {0};
    CloseShows(s0, nodes0, 2, 0, nodes1);
    var s1 := Apply(s0, Close(2, 0));
    var nodes2 := [Dead(), Lost1(), closed.(phase := Electing(0)), Answered3()];
    BeginShows(s1, nodes1, 2, nodes2);
    s := WinShows(Apply(s1, Begin(2)), nodes2, 2, SecondLeads());
  }

  // ----- the rest of the handshake -----

  function Third(): Node {
    Replica(2, [Info(2, 1)], {0, 2})
  }

  function ThirdJoined(): seq<Node> {
    [Dead(), Lost1(), Leader2().(backlog := [Info(3, 2)]), Third()]
  }

  /** What a replica looks like that reads its id, and can connect to the second one of two. */
  lemma ReceiveSecond(s: System, n: nat, id: int, x: Info, y: Info)
    requires Live(s, n) && s.nodes[n] == NewNode(false, AwaitingState(0)).(reply := Replicas(id, [x, y]))
    requires x.node != n && !Live(s, x.node) && y.node != n && Live(s, y.node)
    ensures
      var s' := DoReceiveState(s, n);
      && s'.links == s.links
      && s'.nodes == s.nodes[n := Replica(id, [y], {0, y.node})]
                            [y.node := s.nodes[y.node].(backlog := s.nodes[y.node].backlog + [Info(n, id)])]
  {
    ReachesSecond(s, x, y);
    assert [y][0].node in Nodes([y]);
    assert Nodes([y]) == {y.node};
    assert {0} + {y.node} == {0, y.node};
    assert DoReceiveState(s, n).nodes[n] == Replica(id, [y], {0, y.node});
  }

  /** Replica 3 reads its id, and connects to replica 2, which leads by now. */
  lemma ThirdReceives() returns (s: System)
    ensures Shows(s, ThirdJoined()) && s.links == map[]
  {
    var s0 := SecondIsElected();
    ReceiveSecond(s0, 3, 2, Info(1, 0), Info(2, 1));
    s := Apply(s0, ReceiveState(3));
    assert [] + [Info(3, 2)] == [Info(3, 2)];
    assert s.nodes[2] == ThirdJoined()[2];
    assert s.nodes == State(ThirdJoined()).nodes;
    StepShows(s0, SecondLeads(), ReceiveState(3), ThirdJoined());
  }

  function WrongId(): seq<Node> {
    [Dead(), Lost1(), Leader2().(peers := [Info(3, 0)], handlers := {0, 3}), Third()]
  }

  /** Replica 2 accepts it, and hands out the id 0, which replica 3 ignores. */
  lemma ThirdIsAccepted() returns (s: System)
    ensures Shows(s, WrongId()) && s.links == map[]
  {
    var s0 := ThirdReceives();
    var nodes, node := ThirdJoined(), WrongId()[2];
    assert [Info(3, 2)][1..] == [];
    assert [] + [Info(3, 0)] == [Info(3, 0)] && {0} + {3} == {0, 3};
    PutShows(s0, nodes, 2, node);
    assert DoAccept(s0, 2) == Put(s0, 2, node);
    StepShows(s0, nodes, Accept(2), WrongId());
    s := Apply(s0, Accept(2));
  }

  /** Replica 3 notices the crash as well, and asks replica 2. */
  function ThirdAsks(): seq<Node> {
    [Dead(), Lost1(), WrongId()[2], Third().(closed := {0}, startElection := true, phase := AwaitingAnswer(0))]
  }

  lemma ThirdNotices() returns (s: System)
    ensures Shows(s, [Dead(), Lost1(), WrongId()[2], ThirdAsks()[3].(phase := Electing(0))]) && s.links == map[]
  {
    var s0 := ThirdIsAccepted();
    var closed := Third().(closed := {0}, startElection := true);
    var nodes1 := [Dead(), Lost1(), WrongId()[2], closed];
    assert {} + {0} == {0};
    CloseShows(s0, WrongId(), 3, 0, nodes1);
    OpenOne(Info(2, 1), {0});
    BeginShows(Apply(s0, Close(3, 0)), nodes1, 3, [Dead(), Lost1(), WrongId()[2], closed.(phase := Electing(0))]);
    s := Apply(Apply(s0, Close(3, 0)), Begin(3));
  }

  lemma ThirdRequests() returns (s: System)
    ensures Shows(s, ThirdAsks()) && Link(s, 3, 2) == [ElectionMsg(2)] && Link(s, 2, 3) == []
  {
    var s0 := ThirdNotices();
    AskShows(s0, [Dead(), Lost1(), WrongId()[2], ThirdAsks()[3].(phase := Electing(0))], 3, ThirdAsks());
    s := Apply(s0, Next(3));
  }

  /** So replica 2 holds an election, in which it asks replica 3. */
  function SecondAsks(): seq<Node> {
    [Dead(), Lost1(), WrongId()[2].(startElection := true, phase := AwaitingAnswer(0)), ThirdAsks()[3]]
  }

  function SecondStarts(): seq<Node> {
    [Dead(), Lost1(), WrongId()[2].(startElection := true), ThirdAsks()[3]]
  }

  lemma SecondIsStarted() returns (s: System)
    ensures Shows(s, SecondStarts()) && Link(s, 2, 3) == [AnswerMsg(true)] && Link(s, 3, 2) == []
  {
    var s0 := ThirdRequests();
    RequestShows(s0, ThirdAsks(), 3, 2, 2, SecondStarts());
    s := Apply(s0, Deliver(3, 2));
  }

  lemma SecondRequests() returns (s: System)
    ensures Shows(s, SecondAsks()) && Link(s, 2, 3) == [AnswerMsg(true), ElectionMsg(1)] && Link(s, 3, 2) == []
  {
    var s1 := SecondIsStarted();
    var nodes2 := [Dead(), Lost1(), SecondStarts()[2].(phase := Electing(0)), ThirdAsks()[3]];
    OpenOne(Info(3, 0), {0});
    BeginShows(s1, SecondStarts(), 2, nodes2);
    var s2 := Apply(s1, Begin(2));
    AskShows(s2, nodes2, 2, SecondAsks());
    s := Apply(s2, Next(2));
  }

  function ThirdWins(): seq<Node> {
    [Dead(), Lost1(), SecondAsks()[2], ThirdAsks()[3].(lostElection := true, answered := true)]
  }

  lemma ThirdAnswers() returns (s: System)
    ensures OrderlyReached(s) && Link(s, 3, 2) == [AnswerMsg(false)]
  {
    var s0 := SecondRequests();
    var answered := ThirdWins()[3];
    PutShows(s0.(links := s0.links[(2, 3) := [ElectionMsg(1)]]), SecondAsks(), 3, answered);
    assert Link(s0, 2, 3)[1..] == [ElectionMsg(1)];
    StepShows(s0, SecondAsks(), Deliver(2, 3), ThirdWins());
    var s1 := Apply(s0, Deliver(2, 3));
    var nodes2 := [Dead(), Lost1(), SecondAsks()[2], answered.(startElection := true)];
    RequestShows(s1, ThirdWins(), 2, 3, 1, nodes2);
    s := Apply(s1, Deliver(2, 3));
  }

  // ----- what goes wrong -----

  /** In an orderly run, the replica of the interrupted handshake is not told who leads. */
  lemma NotTold()
    ensures exists s :: OrderlyReached(s) && !Announced(s)
  {
    var s := ThirdReceives();
    assert LeaderFor(s, 2, 3) && !Watches(s, 2, 3);
  }

  /** A later leader has recorded an id that its peer does not have. */
  lemma WrongRecorded()
    ensures exists s :: OrderlyReached(s) && !RightRecords(s)
  {
    var s := ThirdIsAccepted();
    assert s.nodes[2].peers[0] == Info(3, 0) && GivenId(s.nodes[3]) == 2;
    assert !RecordOk(s, 2, s.nodes[2].peers[0]);
  }

  /** It asks that peer, though its own id is lower. */
  lemma AsksHigher()
    ensures exists s, a, b, i :: OrderlyReached(s) && a in s.nodes && b in s.nodes && AsksHigherAt(s, a, b, i)
  {
    var s := SecondRequests();
    assert AsksHigherAt(s, 2, 3, 1);
  }

  predicate AsksHigherAt(s: System, a: nat, b: nat, i: nat)
    requires a in s.nodes && b in s.nodes
  {
    i < |Link(s, a, b)| && Link(s, a, b)[i].ElectionMsg? && GivenId(s.nodes[a]) < GivenId(s.nodes[b])
  }

  /** And it is answered "Won". */
  lemma WonIsSent()
    ensures exists s, a, b :: OrderlyReached(s) && AnswerMsg(false) in Link(s, a, b)
  {
    var s := ThirdAnswers();
    assert AnswerMsg(false) in Link(s, 3, 2);
  }
}
