/**
 * Why replicas have to join at the original leader: a later leader can hand out an id below its own, and a
 * late notice of the first crash then makes the newcomer a second leader.
 */
module ElectionLateJoin {
  import opened Election
  import opened ElectionSafety
  import opened ElectionRuns
  import opened ElectionTraces
  import opened ElectionReuse
  import opened ElectionInterrupted

  // ----- a later leader and a replica with a lower id -----

  /** The leader has not noticed the original leader's crash yet, and is connected to the other process. */
  ghost predicate Unaware(s: System, l: nat, k: nat, i: nat) {
    && l in s.nodes && l != ORIGIN && l != k && ORIGIN in s.nodes && !s.nodes[ORIGIN].alive && Link(s, ORIGIN, l) == []
    && Live(s, l) && s.nodes[l].leader && s.nodes[l].phase.Accepting? && !s.nodes[l].lostElection
    && ORIGIN in s.nodes[l].handlers && ORIGIN in s.nodes[l].toLeader && ORIGIN !in s.nodes[l].closed
    && FirstLower(s.nodes[l], Open(s.nodes[l].peers, s.nodes[l].closed + {ORIGIN}), k, i)
  }

  /** The first entry of the vector with a lower id is the one of process k. */
  predicate FirstLower(node: Node, peers: seq<Info>, k: nat, i: nat) {
    && i < |peers| && peers[i].node == k && peers[i].id < node.id
    && forall j :: 0 <= j < i ==> peers[j].id >= node.id
  }

  /** The other process reads what the leader sends, and knows of nobody before it. */
  ghost predicate Independent(s: System, l: nat, k: nat) {
    && Live(s, k) && s.nodes[k].phase.Accepting? && !s.nodes[k].lostElection
    && l in s.nodes[k].handlers && l !in s.nodes[k].closed && Link(s, l, k) == []
    && NoneBefore(Open(s.nodes[k].peers, s.nodes[k].closed), s.nodes[k].id)
  }

  lemma {:induction false} LooksUntil(s: System, n: nat, i: nat, j: nat)
    requires Live(s, n) && s.nodes[n].phase == Electing(i) && i <= j <= |s.nodes[n].peers|
    requires forall h :: i <= h < j ==> s.nodes[n].peers[h].id >= s.nodes[n].id
    ensures CanReach(s, Put(s, n, s.nodes[n].(phase := Electing(j))))
    decreases j - i
  {
    var node := s.nodes[n];
    Stay(s);
    if i == j {
      PutSame(s, n);
    } else {
      var s1 := Put(s, n, node.(phase := Electing(i + 1)));
      OneMore(s, s, Next(n), s1);
      LooksUntil(s1, n, i + 1, j);
      PutTwice(s, n, node.(phase := Electing(i + 1)), node.(phase := Electing(j)));
      Transitive(s, s1, Put(s, n, node.(phase := Electing(j))));
    }
  }

  /** The leader notices the crash, and runs an election up to the replica with a lower id. */
  lemma LeaderLooks(s: System, l: nat, k: nat, i: nat) returns (t: System)
    requires Unaware(s, l, k, i)
    ensures CanReach(s, t) && l in t.nodes && t.links == s.links && t.nodes == s.nodes[l := t.nodes[l]]
    ensures t.nodes[l].alive && t.nodes[l].leader && t.nodes[l].phase == Electing(i)
    ensures FirstLower(t.nodes[l], t.nodes[l].peers, k, i)
  {
    var node := s.nodes[l];
    var noticed := node.(closed := node.closed + {ORIGIN}, startElection := true);
    var s1 := Put(s, l, noticed);
    Stay(s);
    OneMore(s, s, Close(l, ORIGIN), s1);
    var looking := noticed.(peers := Open(node.peers, node.closed + {ORIGIN}), phase := Electing(0));
    PutTwice(s, l, noticed, looking);
    OneMore(s, s1, Begin(l), Put(s, l, looking));
    LooksUntil(Put(s, l, looking), l, 0, i);
    PutTwice(s, l, looking, looking.(phase := Electing(i)));
    t := Put(s, l, looking.(phase := Electing(i)));
    Transitive(s, Put(s, l, looking), t);
  }

  /** It asks that replica, which starts an election of its own. */
  lemma LeaderAsks(s: System, l: nat, k: nat, i: nat) returns (t: System)
    requires l != k && Live(s, l) && s.nodes[l].phase == Electing(i) && FirstLower(s.nodes[l], s.nodes[l].peers, k, i)
    requires Independent(s, l, k)
    ensures CanReach(s, t) && t.nodes.Keys == s.nodes.Keys
    ensures t.nodes[l] == s.nodes[l].(phase := AwaitingAnswer(i))
    ensures t.nodes[k] == s.nodes[k].(startElection := true)
  {
    var s1 := Apply(s, Next(l));
    Stay(s);
    OneMore(s, s, Next(l), s1);
    assert Link(s1, l, k) == [ElectionMsg(s.nodes[l].id)];
    t := Apply(s1, Deliver(l, k));
    OneMore(s, s1, Deliver(l, k), t);
  }

  /** A later leader that has recorded a lower id for such a replica is not the only leader for long. */
  lemma LowerIdSplits(s: System, l: nat, k: nat, i: nat)
    requires Unaware(s, l, k, i) && Independent(s, l, k)
    ensures exists u :: CanReach(s, u) && TwoLead(u, l, k)
  {
    var s1 := LeaderLooks(s, l, k, i);
    assert s1.nodes[k] == s.nodes[k] && Link(s1, l, k) == Link(s, l, k);
    var s2 := LeaderAsks(s1, l, k, i);
    Transitive(s, s1, s2);
    var s3 := ElectsItself(s2, k);
    Transitive(s, s2, s3);
    assert TwoLead(s3, l, k);
  }

  // ----- the run -----

  function Second(): Node {
    Replica(1, [Info(3, 2)], {0, 3})
  }

  function ThirdHello(): seq<Node> {
    [Leader3(), Lost1(), Replica(1, [], {0}).(backlog := [Info(3, 2)]), Third()]
  }

  /** Both are connected. */
  function Connected(): seq<Node> {
    [Leader3(), Lost1(), Second(), Third()]
  }

  lemma ThirdJoins()
    ensures CanReach(INITIAL_SYSTEM, State(Connected()))
  {
    ThirdIsAnswered();
    var s := State(LostGiven3());
    ReceiveSecond(s, 3, 2, Info(1, 0), Info(2, 1));
    assert [] + [Info(3, 2)] == [Info(3, 2)] && {0} + {3} == {0, 3};
    assert DoReceiveState(s, 3).nodes == State(ThirdHello()).nodes;
    StepOn(LostGiven3(), ReceiveState(3), ThirdHello());
    HelloState(ThirdHello(), 2, Info(3, 2), Connected());
    StepOn(ThirdHello(), Accept(2), Connected());
  }

  function LeaderGone(): seq<Node> {
    [Dead(), Lost1(), Second(), Third()]
  }

  lemma ConnectedAreQuiet()
    ensures Quiet(State(Connected()))
  {
    var s := State(Connected());
    forall n | Backup(s, n) ensures Joined(s.nodes[n]) {
      assert n < 4;
    }
  }

  lemma LeaderGoneIsReached() returns (s: System)
    ensures s == Apply(State(Connected()), Crash(ORIGIN)) && OrderlyReached(s)
  {
    var before := State(Connected());
    ThirdJoins();
    ConnectedAreQuiet();
    s := Apply(before, Crash(ORIGIN));
    OneMore(INITIAL_SYSTEM, before, Crash(ORIGIN), s);
    ReachableByRun(s);
    var run :| ReachedBy(run, s);
    CalmRunInv(run);
    assert OrderlyTo(run, s);
  }

  lemma LeaderGoes() returns (s: System)
    ensures Shows(s, LeaderGone()) && s.links == map[]
  {
    s := LeaderGoneIsReached();
    PutShows(State(Connected()), Connected(), 0, Dead());
    assert Connected()[0 := Dead()] == LeaderGone();
  }

  /** Replica 3 notices, and asks replica 2. */
  function ThirdAsking(): Node {
    Third().(closed := {0}, startElection := true, phase := AwaitingAnswer(0))
  }

  lemma ThirdNotices() returns (s: System)
    ensures Shows(s, [Dead(), Lost1(), Second(), Third().(closed := {0}, startElection := true, phase := Electing(0))])
    ensures s.links == map[]
  {
    var s0 := LeaderGoes();
    var closed := Third().(closed := {0}, startElection := true);
    var nodes1 := [Dead(), Lost1(), Second(), closed];
    assert {} + {0} == {0};
    CloseShows(s0, LeaderGone(), 3, 0, nodes1);
    OpenOne(Info(2, 1), {0});
    BeginShows(Apply(s0, Close(3, 0)), nodes1, 3, [Dead(), Lost1(), Second(), closed.(phase := Electing(0))]);
    s := Apply(Apply(s0, Close(3, 0)), Begin(3));
  }

  lemma SecondIsAsked() returns (s: System)
    ensures Shows(s, [Dead(), Lost1(), Second().(startElection := true), ThirdAsking()])
    ensures Link(s, 3, 2) == [] && Link(s, 0, 2) == [] && Link(s, 2, 4) == []
  {
    var s0 := ThirdNotices();
    var nodes0 := [Dead(), Lost1(), Second(), ThirdAsking().(phase := Electing(0))];
    var nodes1 := [Dead(), Lost1(), Second(), ThirdAsking()];
    AskShows(s0, nodes0, 3, nodes1);
    var s1 := Apply(s0, Next(3));
    RequestShows(s1, nodes1, 3, 2, 2, [Dead(), Lost1(), Second().(startElection := true), ThirdAsking()]);
    s := Apply(s1, Deliver(3, 2));
  }

  /** Replica 2 as a leader that has seen replica 3 crash, but not the original leader. */
  function LateLeader(): Node {
    Replica(1, [], {0, 3}).(closed := {3}, leader := true)
  }

  function SecondAlone(): seq<Node> {
    [Dead(), Lost1(), LateLeader(), ThirdAsking().(alive := false)]
  }

  /** Replica 3 crashes, and replica 2 wins. */
  lemma SecondWins() returns (s: System)
    ensures Shows(s, SecondAlone()) && Link(s, 0, 2) == [] && Link(s, 2, 4) == []
  {
    var s0 := SecondIsAsked();
    var started := Second().(startElection := true);
    var nodes0, gone := [Dead(), Lost1(), started, ThirdAsking()], ThirdAsking().(alive := false);
    PutShows(s0, nodes0, 3, gone);
    var nodes1 := [Dead(), Lost1(), started, gone];
    StepShows(s0, nodes0, Crash(3), nodes1);
    var s1 := Apply(s0, Crash(3));
    assert {} + {3} == {3};
    var nodes2 := [Dead(), Lost1(), started.(closed := {3}), gone];
    CloseShows(s1, nodes1, 2, 3, nodes2);
    var s2 := Apply(s1, Close(2, 3));
    OpenOne(Info(3, 2), {3});
    var nodes3 := [Dead(), Lost1(), started.(closed := {3}, peers := [], phase := Electing(0)), gone];
    BeginShows(s2, nodes2, 2, nodes3);
    s := WinShows(Apply(s2, Begin(2)), nodes3, 2, SecondAlone());
  }

  /** What is left of the handshake after the hello, for a leader without open connections. */
  lemma LateHandshake(s: System, l: nat, k: nat)
    requires Live(s, l) && s.nodes[l].leader && s.nodes[l].phase.Accepting? && s.nodes[l].backlog == [Info(k, -1)] && l != k
    requires Open(s.nodes[l].peers, s.nodes[l].closed) == [] && k in s.nodes && s.nodes[k] == NewNode(false, AwaitingState(l))
    ensures Enabled(s, Accept(l)) && Enabled(Apply(s, Accept(l)), ReceiveState(k))
    ensures
      var t := Apply(Apply(s, Accept(l)), ReceiveState(k));
      && t.links == s.links && t.nodes.Keys == s.nodes.Keys
      && t.nodes[l] == s.nodes[l].(backlog := [], peers := [Info(k, 0)], handlers := s.nodes[l].handlers + {k})
      && t.nodes[k] == Node(true, false, 0, [], [], NoReply, {l}, {}, {l}, Accepting, false, false, false)
      && forall m :: m in s.nodes && m != l && m != k ==> t.nodes[m] == s.nodes[m]
  {
    assert [Info(k, -1)][1..] == [] && [] + [Info(k, 0)] == [Info(k, 0)];
    var s1 := Apply(s, Accept(l));
    assert s1.nodes[k] == s.nodes[k].(reply := Replicas(0, []));
    assert Reachable(s1, []) == [] && Nodes([]) == {};
    assert {} + {l} + {} == {l} && {} + {l} == {l};
  }

  /** Replica 4 joins at replica 2, and gets the id 0. */
  lemma FourthJoins() returns (run: seq<Action>, s: System)
    ensures RunTo(run, s) && Unaware(s, 2, 4, 0) && Independent(s, 2, 4)
  {
    var s0 := SecondWins();
    run :| OrderlyTo(run, s0);
    var s1 := Apply(s0, Join(4, 2));
    OneMoreAction(run, s0, Join(4, 2));
    assert [] + [Info(4, -1)] == [Info(4, -1)];
    LateHandshake(s1, 2, 4);
    OneMoreAction(run + [Join(4, 2)], s1, Accept(2));
    var s2 := Apply(s1, Accept(2));
    OneMoreAction(run + [Join(4, 2)] + [Accept(2)], s2, ReceiveState(4));
    run := run + [Join(4, 2)] + [Accept(2)] + [ReceiveState(4)];
    s := Apply(s2, ReceiveState(4));
    IsUnaware(s);
  }

  lemma IsUnaware(s: System)
    requires 2 in s.nodes && ORIGIN in s.nodes && !s.nodes[ORIGIN].alive && Link(s, ORIGIN, 2) == []
    requires s.nodes[2] == LateLeader().(peers := [Info(4, 0)], handlers := {0, 3} + {4})
    ensures Unaware(s, 2, 4, 0)
  {
    OpenOne(Info(4, 0), {3} + {0});
  }

  /** In the end both of them lead. */
  lemma TwoLeadersByLateJoin()
    ensures exists run, u :: RunTo(run, u) && TwoLead(u, 2, 4)
  {
    var run, s := FourthJoins();
    LowerIdSplits(s, 2, 4, 0);
    var u :| CanReach(s, u) && TwoLead(u, 2, 4);
    ReachByRun(run, s, u);
    var longer :| RunTo(longer, u);
  }
}
