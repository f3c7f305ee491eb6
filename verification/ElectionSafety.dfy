/** Once the original leader has crashed: the remaining handshakes, and elections among the backups. */
module ElectionSafety {
  import opened Election

  // ----- the invariant -----

  /** What is assumed of a run beside the order at the leader's crash. */
  datatype Mode =
    | Any    // nothing
    | Right  // a later leader hands out only ids that are taken
    | Calm   // the leader's crash came between handshakes, with all ids distinct

  ghost predicate HandshakeOk(node: Node) {
    && (node.reply.Replicas? ==> node.phase.AwaitingState?)
    && (node.phase.AwaitingState? ==>
          node.phase.to == ORIGIN && node.peers == [] && node.handlers == {} && !node.leader)
  }

  ghost predicate Handshakes(s: System) {
    && ORIGIN in s.nodes && !s.nodes[ORIGIN].alive
    && forall n :: n in s.nodes && n != ORIGIN ==> HandshakeOk(s.nodes[n])
  }

  ghost predicate RecordOk(s: System, n: nat, info: Info) {
    info.node != n && info.node != ORIGIN && info.node in s.nodes && info.id == GivenId(s.nodes[info.node])
  }

  ghost predicate RecordsOf(s: System, n: nat, infos: seq<Info>) {
    forall i :: 0 <= i < |infos| ==> RecordOk(s, n, infos[i])
  }

  /** A later leader that accepts a replica records an id for it that the replica does not take. */
  ghost predicate Exact(n: nat, node: Node, mode: Mode) {
    mode != Any || n == ORIGIN || !node.leader
  }

  /** The id recorded for a peer is the id that was given to that peer. */
  ghost predicate NodeRecords(s: System, n: nat, node: Node, mode: Mode) {
    && RecordsOf(s, n, Offered(node))
    && (n != ORIGIN ==> RecordsOf(s, n, node.backlog))
    && (Exact(n, node, mode) ==> RecordsOf(s, n, node.peers))
    && forall i :: 0 <= i < |node.peers| ==> node.peers[i].node in s.nodes
  }

  ghost predicate Records(s: System, mode: Mode) {
    forall n :: n in s.nodes ==> NodeRecords(s, n, s.nodes[n], mode)
  }

  ghost predicate ClosedAreDead(s: System) {
    forall n, p :: n in s.nodes && p in s.nodes[n].closed ==> p in s.nodes && !s.nodes[p].alive
  }

  /** ELECTION goes to a lower id only, and is answered with "Lost" only, but for wrong records. */
  ghost predicate MessageOk(s: System, mode: Mode, a: nat, b: nat, m: Message) {
    match m
    case ElectionMsg(id) =>
      && a in s.nodes && b in s.nodes && id == GivenId(s.nodes[a])
      && (GivenId(s.nodes[b]) < id || !Exact(a, s.nodes[a], mode))
    case AnswerMsg(lost) => b in s.nodes && (lost || !Exact(b, s.nodes[b], mode))
    case CoordinatorMsg => true
  }

  ghost predicate Messages(s: System, mode: Mode) {
    forall a, b, i :: 0 <= i < |Link(s, a, b)| ==> MessageOk(s, mode, a, b, Link(s, a, b)[i])
  }

  ghost predicate NoneLower(node: Node, i: int) {
    forall j :: 0 <= j < i && j < |node.peers| ==> node.peers[j].id >= node.id
  }

  /** The part of the vector that sendElection has passed holds no lower id. */
  ghost predicate ProgressOk(node: Node) {
    && (node.phase.Electing? ==> NoneLower(node, node.phase.next))
    && (node.phase.AwaitingAnswer? ==> NoneLower(node, node.phase.next))
    && (node.phase.Deciding? && !node.lostElection ==> NoneLower(node, |node.peers|))
    && (node.answered ==> node.phase.AwaitingAnswer? && node.lostElection)
  }

  ghost predicate Progress(s: System, mode: Mode) {
    forall n :: n in s.nodes && Exact(n, s.nodes[n], mode) ==> ProgressOk(s.nodes[n])
  }

  /** Every live replica sees every other live replica. */
  ghost predicate Complete(s: System) {
    forall n, m :: Backup(s, n) && Backup(s, m) && n != m ==> Sees(s.nodes[n], m)
  }

  /** No live replica has a lower id than this one, and no other live one the same. */
  ghost predicate Least(s: System, info: Info) {
    && info.node in s.nodes && info.node != ORIGIN && GivenId(s.nodes[info.node]) == info.id
    && forall m :: Backup(s, m) && m != info.node ==> info.id < GivenId(s.nodes[m])
  }

  ghost predicate LeadersWereElected(s: System) {
    && (forall k :: 0 <= k < |s.elected| ==> Least(s, s.elected[k]))
    && forall n :: n in s.nodes && n != ORIGIN && s.nodes[n].leader ==> Info(n, GivenId(s.nodes[n])) in s.elected
  }

  ghost predicate Increasing(elected: seq<Info>) {
    forall j, k :: 0 <= j < k < |elected| ==> elected[j] == elected[k] || elected[j].id < elected[k].id
  }

  /** All of the invariant but the history. */
  ghost predicate Present(s: System, mode: Mode) {
    && Handshakes(s) && Ordered(s) && Records(s, mode) && ClosedAreDead(s) && Messages(s, mode) && Progress(s, mode)
    && (mode.Calm? ==> Quiet(s) && Complete(s))
  }

  ghost predicate Inv(s: System, mode: Mode) {
    Present(s, mode) && LeadersWereElected(s) && Increasing(s.elected)
  }

  // ----- lists of replicas -----

  /** The open connections stay, in their order, and nothing else. */
  lemma {:induction false} OpenFilters(a: seq<Info>, info: Info, b: seq<Info>, closed: set<nat>)
    ensures Open(a + [info] + b, closed) ==
            Open(a, closed) + (if info.node in closed then [] else [info]) + Open(b, closed)
  {
    var all := a + [info] + b;
    if b == [] {
      assert all == a + [info] && all[..|all| - 1] == a;
    } else {
      var front, last := b[..|b| - 1], b[|b| - 1];
      assert all[..|all| - 1] == a + [info] + front && all[|all| - 1] == last;
      OpenFilters(a, info, front, closed);
    }
  }

  lemma {:induction false} OpenIn(peers: seq<Info>, closed: set<nat>, info: Info)
    ensures info in Open(peers, closed) <==> info in peers && info.node !in closed
  {
    if peers != [] {
      OpenIn(peers[..|peers| - 1], closed, info);
      assert peers == peers[..|peers| - 1] + [peers[|peers| - 1]];
    }
  }

  lemma KnowsIn(infos: seq<Info>, info: Info)
    requires info in infos
    ensures Knows(infos, info.node)
  {
  }

  lemma KnowsAppend(a: seq<Info>, b: seq<Info>, m: nat)
    ensures Knows(a + b, m) <==> Knows(a, m) || Knows(b, m)
  {
    if Knows(a, m) {
      var i :| 0 <= i < |a| && a[i].node == m;
      assert (a + b)[i].node == m;
    }
    if Knows(b, m) {
      var i :| 0 <= i < |b| && b[i].node == m;
      assert (a + b)[|a| + i].node == m;
    }
  }

  lemma OpenKnows(s: System, n: nat, m: nat)
    requires n in s.nodes && ClosedAreDead(s) && Live(s, m) && Knows(s.nodes[n].peers, m)
    ensures Knows(Open(s.nodes[n].peers, s.nodes[n].closed), m)
  {
    var node := s.nodes[n];
    var i :| 0 <= i < |node.peers| && node.peers[i].node == m;
    OpenIn(node.peers, node.closed, node.peers[i]);
    KnowsIn(Open(node.peers, node.closed), node.peers[i]);
  }

  lemma OpenRecords(s: System, n: nat, node: Node, mode: Mode)
    requires NodeRecords(s, n, node, mode)
    ensures NodeRecords(s, n, node.(peers := Open(node.peers, node.closed)), mode)
  {
    var open := Open(node.peers, node.closed);
    forall i | 0 <= i < |open|
      ensures open[i].node in s.nodes && (Exact(n, node, mode) ==> RecordOk(s, n, open[i]))
    {
      OpenIn(node.peers, node.closed, open[i]);
      var j :| 0 <= j < |node.peers| && node.peers[j] == open[i];
      assert Exact(n, node, mode) ==> RecordOk(s, n, node.peers[j]);
    }
  }

  lemma {:induction false} ReachableIn(s: System, infos: seq<Info>, info: Info)
    ensures info in Reachable(s, infos) <==> info in infos && Live(s, info.node)
  {
    if infos != [] {
      ReachableIn(s, infos[..|infos| - 1], info);
      assert infos == infos[..|infos| - 1] + [infos[|infos| - 1]];
    }
  }

  lemma ReachableKnows(s: System, infos: seq<Info>, m: nat)
    requires Live(s, m) && Knows(infos, m)
    ensures Knows(Reachable(s, infos), m)
  {
    var i :| 0 <= i < |infos| && infos[i].node == m;
    ReachableIn(s, infos, infos[i]);
    KnowsIn(Reachable(s, infos), infos[i]);
  }

  // ----- what a step leaves as it was -----

  /** Nobody revives, and nobody is given another id, or stops to lead. */
  ghost predicate Steady(s: System, s': System) {
    && s'.nodes.Keys == s.nodes.Keys
    && forall m :: m in s.nodes ==>
         && (s'.nodes[m].alive ==> s.nodes[m].alive)
         && GivenId(s'.nodes[m]) == GivenId(s.nodes[m])
         && (s.nodes[m].leader ==> s'.nodes[m].leader)
  }

  lemma SteadyRecords(s: System, s': System, n: nat, infos: seq<Info>)
    requires Steady(s, s') && RecordsOf(s, n, infos)
    ensures RecordsOf(s', n, infos)
  {
    forall i | 0 <= i < |infos| ensures RecordOk(s', n, infos[i]) {
      assert RecordOk(s, n, infos[i]);
    }
  }

  lemma SteadyMessages(s: System, s': System, mode: Mode)
    requires Steady(s, s') && Messages(s, mode) && s'.links == s.links
    ensures Messages(s', mode)
  {
    forall a: nat, b: nat, i | 0 <= i < |Link(s', a, b)| ensures MessageOk(s', mode, a, b, Link(s', a, b)[i]) {
      assert MessageOk(s, mode, a, b, Link(s, a, b)[i]);
    }
  }

  lemma SteadyOrdered(s: System, s': System)
    requires Steady(s, s') && Ordered(s)
    requires forall n, m :: Backup(s', n) && Backup(s', m) && Sees(s.nodes[n], m) ==> Sees(s'.nodes[n], m)
    ensures Ordered(s') && (Complete(s) ==> Complete(s'))
  {
    forall n, m | Backup(s', n) && Backup(s', m) && n != m ensures Before(s', m, n) || Before(s', n, m) {
      assert Backup(s, n) && Backup(s, m);
      assert Before(s, m, n) || Before(s, n, m);
    }
    forall n, m | Complete(s) && Backup(s', n) && Backup(s', m) && n != m ensures Sees(s'.nodes[n], m) {
      assert Backup(s, n) && Backup(s, m);
    }
  }

  lemma SteadyElected(s: System, s': System)
    requires Steady(s, s') && LeadersWereElected(s) && s'.elected == s.elected
    requires forall n :: n in s.nodes ==> s'.nodes[n].leader == s.nodes[n].leader
    ensures LeadersWereElected(s')
  {
    forall k | 0 <= k < |s'.elected| ensures Least(s', s'.elected[k]) {
      assert Least(s, s.elected[k]);
      forall m | Backup(s', m) && m != s.elected[k].node ensures s.elected[k].id < GivenId(s'.nodes[m]) {
        assert Backup(s, m);
      }
    }
  }

  lemma SameRecords(s: System, s': System, mode: Mode)
    requires Records(s, mode) && s'.nodes == s.nodes
    ensures Records(s', mode)
  {
    forall n | n in s'.nodes ensures NodeRecords(s', n, s'.nodes[n], mode) {
      NodeRecordsKept(s, s', n, s.nodes[n], mode);
    }
  }

  /** Only the messages and the history differ. */
  lemma SameNodes(s: System, s': System, mode: Mode)
    requires Present(s, mode) && s'.nodes == s.nodes && Messages(s', mode)
    ensures Present(s', mode)
  {
    SteadyOrdered(s, s');
    SameRecords(s, s', mode);
  }

  lemma NodeRecordsKept(s: System, s': System, n: nat, node: Node, mode: Mode)
    requires Steady(s, s') && NodeRecords(s, n, node, mode)
    ensures NodeRecords(s', n, node, mode)
  {
    SteadyRecords(s, s', n, Offered(node));
    if n != ORIGIN {
      SteadyRecords(s, s', n, node.backlog);
    }
    if Exact(n, node, mode) {
      SteadyRecords(s, s', n, node.peers);
    }
  }

  // ----- steps that change one process -----

  /** What one process may change: flags, phases, closed connections, its vector; and it may crash. */
  ghost predicate LocalChange(s: System, n: nat, node: Node, mode: Mode) {
    && n in s.nodes && n != ORIGIN
    && (node.alive ==> s.nodes[n].alive) && GivenId(node) == GivenId(s.nodes[n])
    && (s.nodes[n].leader ==> node.leader)
    && HandshakeOk(node) && NodeRecords(s, n, node, mode) && (Exact(n, node, mode) ==> ProgressOk(node))
    && (forall p :: p in node.closed ==> p in s.nodes && !s.nodes[p].alive)
    && (forall m :: Backup(s, m) && Sees(s.nodes[n], m) ==> Sees(node, m))
    && (mode.Calm? ==> Joined(node))
  }

  lemma NoChange(s: System, n: nat, mode: Mode)
    requires Present(s, mode) && Backup(s, n)
    ensures LocalChange(s, n, s.nodes[n], mode)
  {
  }

  lemma LocalSteady(s: System, n: nat, node: Node, mode: Mode)
    requires LocalChange(s, n, node, mode)
    ensures Steady(s, Put(s, n, node))
  {
  }

  lemma LocalRecords(s: System, n: nat, node: Node, mode: Mode)
    requires Records(s, mode) && ClosedAreDead(s) && LocalChange(s, n, node, mode)
    ensures Records(Put(s, n, node), mode) && ClosedAreDead(Put(s, n, node))
  {
    var s' := Put(s, n, node);
    LocalSteady(s, n, node, mode);
    forall m | m in s'.nodes ensures NodeRecords(s', m, s'.nodes[m], mode) {
      NodeRecordsKept(s, s', m, s'.nodes[m], mode);
    }
  }

  lemma LocalOrdered(s: System, n: nat, node: Node, mode: Mode)
    requires Ordered(s) && LocalChange(s, n, node, mode)
    ensures Ordered(Put(s, n, node)) && (Complete(s) ==> Complete(Put(s, n, node)))
  {
    var s' := Put(s, n, node);
    LocalSteady(s, n, node, mode);
    forall k, m | Backup(s', k) && Backup(s', m) && Sees(s.nodes[k], m) ensures Sees(s'.nodes[k], m) {
      assert Backup(s, m);
    }
    SteadyOrdered(s, s');
  }

  lemma LocalProgress(s: System, n: nat, node: Node, mode: Mode)
    requires Handshakes(s) && Progress(s, mode) && LocalChange(s, n, node, mode)
    ensures Handshakes(Put(s, n, node)) && Progress(Put(s, n, node), mode)
    ensures mode.Calm? && Quiet(s) ==> Quiet(Put(s, n, node))
  {
  }

  lemma LocalPresent(s: System, n: nat, node: Node, mode: Mode)
    requires Present(s, mode) && LocalChange(s, n, node, mode)
    ensures Present(Put(s, n, node), mode)
  {
    LocalRecords(s, n, node, mode);
    LocalOrdered(s, n, node, mode);
    LocalProgress(s, n, node, mode);
    LocalSteady(s, n, node, mode);
    SteadyMessages(s, Put(s, n, node), mode);
  }

  lemma LocalStep(s: System, n: nat, node: Node, mode: Mode)
    requires Inv(s, mode) && LocalChange(s, n, node, mode) && node.leader == s.nodes[n].leader
    ensures Inv(Put(s, n, node), mode)
  {
    LocalPresent(s, n, node, mode);
    LocalSteady(s, n, node, mode);
    SteadyElected(s, Put(s, n, node));
  }

  // ----- messages -----

  lemma PushKeeps(s: System, mode: Mode, a: nat, b: nat, m: Message)
    requires Inv(s, mode) && MessageOk(s, mode, a, b, m)
    ensures Inv(Push(s, a, b, m), mode)
  {
    var s' := Push(s, a, b, m);
    forall c: nat, d: nat, i | 0 <= i < |Link(s', c, d)| ensures MessageOk(s', mode, c, d, Link(s', c, d)[i]) {
      if i < |Link(s, c, d)| {
        assert MessageOk(s, mode, c, d, Link(s, c, d)[i]);
      }
    }
    SameNodes(s, s', mode);
    SteadyElected(s, s');
  }

  lemma PopKeeps(s: System, mode: Mode, a: nat, b: nat)
    requires Inv(s, mode) && Link(s, a, b) != []
    ensures Inv(s.(links := s.links[(a, b) := Link(s, a, b)[1..]]), mode)
    ensures MessageOk(s, mode, a, b, Link(s, a, b)[0])
  {
    var s' := s.(links := s.links[(a, b) := Link(s, a, b)[1..]]);
    assert MessageOk(s, mode, a, b, Link(s, a, b)[0]);
    forall c: nat, d: nat, i | 0 <= i < |Link(s', c, d)| ensures MessageOk(s', mode, c, d, Link(s', c, d)[i]) {
      var j := if (c, d) == (a, b) then i + 1 else i;
      assert MessageOk(s, mode, c, d, Link(s, c, d)[j]);
    }
    SameNodes(s, s', mode);
    SteadyElected(s, s');
  }

  /** A request that was sent on a right record is lost; the answer to a leader does not matter. */
  lemma RequestKeeps(s: System, mode: Mode, a: nat, b: nat, id: int)
    requires Inv(s, mode) && Backup(s, b) && a in s.nodes[b].handlers
    requires MessageOk(s, mode, a, b, ElectionMsg(id))
    ensures
      var won := a != b && id < s.nodes[b].id;
      Inv(Push(Put(s, b, s.nodes[b].(startElection := true)), b, a, AnswerMsg(!won)), mode)
  {
    var s1 := Put(s, b, s.nodes[b].(startElection := true));
    StartKeeps(s, mode, b);
    assert HandshakeOk(s.nodes[b]);
    PushKeeps(s1, mode, b, a, AnswerMsg(!(a != b && id < s.nodes[b].id)));
  }

  lemma StartKeeps(s: System, mode: Mode, n: nat)
    requires Inv(s, mode) && Backup(s, n)
    ensures Inv(Put(s, n, s.nodes[n].(startElection := true)), mode)
  {
    NoChange(s, n, mode);
    LocalStep(s, n, s.nodes[n].(startElection := true), mode);
  }

  lemma FlagKeeps(s: System, mode: Mode, a: nat, b: nat)
    requires Inv(s, mode) && Backup(s, b)
    ensures Inv(Put(s, b, s.nodes[b].(toLeader := s.nodes[b].toLeader + {a})), mode)
  {
    NoChange(s, b, mode);
    LocalStep(s, b, s.nodes[b].(toLeader := s.nodes[b].toLeader + {a}), mode);
  }

  /** The flags after an answer. */
  function Answered(node: Node, lost: bool): Node {
    node.(lostElection := node.lostElection || lost, answered := node.phase.AwaitingAnswer?)
  }

  lemma AnswerKeeps(s: System, mode: Mode, a: nat, b: nat, lost: bool)
    requires Inv(s, mode) && Backup(s, b) && MessageOk(s, mode, a, b, AnswerMsg(lost))
    ensures Inv(Put(s, b, Answered(s.nodes[b], lost)), mode)
  {
    NoChange(s, b, mode);
    LocalStep(s, b, Answered(s.nodes[b], lost), mode);
  }

  lemma DeliverKeeps(s: System, mode: Mode, a: nat, b: nat)
    requires Inv(s, mode) && Enabled(s, Deliver(a, b))
    ensures Inv(DoDeliver(s, a, b), mode)
  {
    PopKeeps(s, mode, a, b);
    var s1 := s.(links := s.links[(a, b) := Link(s, a, b)[1..]]);
    assert Backup(s1, b);
    match Link(s, a, b)[0]
    case ElectionMsg(id) =>
      RequestKeeps(s1, mode, a, b, id);
    case CoordinatorMsg =>
      FlagKeeps(s1, mode, a, b);
    case AnswerMsg(lost) =>
      AnswerKeeps(s1, mode, a, b, lost);
  }

  // ----- the rest of the handshakes -----

  /** A later leader that accepts a replica records the id that the replica has. */
  predicate RecordsTaken(s: System, a: Action)
    requires Enabled(s, a)
  {
    a.Accept? && a.n != ORIGIN && s.nodes[a.n].leader ==>
      s.nodes[a.n].backlog[0].id == |Open(s.nodes[a.n].peers, s.nodes[a.n].closed)|
  }

  /** The records of a later leader stay right exactly when the id it hands out is the one the replica has. */
  lemma AcceptRecordsExactly(s: System, n: nat)
    requires Present(s, Any) && Enabled(s, Accept(n)) && s.nodes[n].leader
    requires RecordsOf(s, n, s.nodes[n].peers)
    ensures
      var s' := DoAccept(s, n);
      n in s'.nodes && (RecordsOf(s', n, s'.nodes[n].peers) <==> RecordsTaken(s, Accept(n)))
  {
    var node, s' := s.nodes[n], DoAccept(s, n);
    var hello, open := node.backlog[0], Open(node.peers, node.closed);
    assert RecordOk(s, n, hello) && HandshakeOk(s.nodes[hello.node]);
    AcceptChange(s, Any, n);
    LocalSteady(s, n, s'.nodes[n], Any);
    OpenRecordsOf(s, n, node);
    SteadyRecords(s, s', n, open);
    assert s'.nodes[n].peers == open + [Info(hello.node, |open|)];
    assert s'.nodes[n].peers[|open|] == Info(hello.node, |open|);
  }

  lemma OpenRecordsOf(s: System, n: nat, node: Node)
    requires RecordsOf(s, n, node.peers)
    ensures RecordsOf(s, n, Open(node.peers, node.closed))
  {
    var open := Open(node.peers, node.closed);
    forall i | 0 <= i < |open| ensures RecordOk(s, n, open[i]) {
      OpenIn(node.peers, node.closed, open[i]);
      var j :| 0 <= j < |node.peers| && node.peers[j] == open[i];
      assert RecordOk(s, n, node.peers[j]);
    }
  }

  lemma AcceptSees(s: System, n: nat, m: nat)
    requires ClosedAreDead(s) && Enabled(s, Accept(n)) && Live(s, m) && Sees(s.nodes[n], m)
    requires s.nodes[n].leader ==> s.nodes[s.nodes[n].backlog[0].node].phase != AwaitingState(n)
    ensures n in DoAccept(s, n).nodes && Sees(DoAccept(s, n).nodes[n], m)
  {
    var node, node' := s.nodes[n], DoAccept(s, n).nodes[n];
    var open := Open(node.peers, node.closed);
    if Knows(node.peers, m) {
      OpenKnows(s, n, m);
      KnowsAppend(open, node'.peers[|open|..], m);
      assert node'.peers == open + node'.peers[|open|..];
    }
  }

  lemma AcceptChange(s: System, mode: Mode, n: nat)
    requires Present(s, mode) && Enabled(s, Accept(n)) && (mode.Right? ==> RecordsTaken(s, Accept(n)))
    ensures n in DoAccept(s, n).nodes && LocalChange(s, n, DoAccept(s, n).nodes[n], mode)
    ensures DoAccept(s, n) == Put(s, n, DoAccept(s, n).nodes[n])
  {
    var node, node' := s.nodes[n], DoAccept(s, n).nodes[n];
    var hello, open := node.backlog[0], Open(node.peers, node.closed);
    NoChange(s, n, mode);
    OpenRecords(s, n, node, mode);
    assert RecordOk(s, n, hello);
    forall i | 0 <= i < |node'.backlog| ensures RecordOk(s, n, node'.backlog[i]) {
      assert RecordOk(s, n, node.backlog[i + 1]);
    }
    forall m | Backup(s, m) && Sees(node, m) ensures Sees(node', m) {
      AcceptSees(s, n, m);
    }
  }

  lemma AcceptKeeps(s: System, mode: Mode, n: nat)
    requires Inv(s, mode) && Enabled(s, Accept(n)) && (mode.Right? ==> RecordsTaken(s, Accept(n)))
    ensures Inv(DoAccept(s, n), mode)
  {
    AcceptChange(s, mode, n);
    LocalStep(s, n, DoAccept(s, n).nodes[n], mode);
  }

  lemma LoseLeaderKeeps(s: System, mode: Mode, n: nat)
    requires Inv(s, mode) && Enabled(s, LoseLeader(n))
    ensures Inv(DoLoseLeader(s, n), mode)
  {
    NoChange(s, n, mode);
    LocalStep(s, n, DoLoseLeader(s, n).nodes[n], mode);
  }

  lemma ReceiveSteady(s: System, n: nat)
    requires Enabled(s, ReceiveState(n))
    ensures
      var s' := DoReceiveState(s, n);
      Steady(s, s') && forall m :: m in s.nodes ==> s'.nodes[m].leader == s.nodes[m].leader
  {
  }

  lemma ReceivePeers(s: System, n: nat)
    requires Enabled(s, ReceiveState(n)) && RecordsOf(s, n, s.nodes[n].reply.replicas)
    ensures RecordsOf(s, n, Reachable(s, s.nodes[n].reply.replicas))
    ensures n !in Nodes(Reachable(s, s.nodes[n].reply.replicas)) && ORIGIN !in Nodes(Reachable(s, s.nodes[n].reply.replicas))
  {
    var infos := s.nodes[n].reply.replicas;
    var peers := Reachable(s, infos);
    forall i | 0 <= i < |peers| ensures RecordOk(s, n, peers[i]) {
      ReachableIn(s, infos, peers[i]);
      var j :| 0 <= j < |infos| && infos[j] == peers[i];
      assert RecordOk(s, n, infos[j]);
    }
  }

  lemma ReceiveOwnRecords(s: System, mode: Mode, n: nat)
    requires n != ORIGIN && Enabled(s, ReceiveState(n)) && NodeRecords(s, n, s.nodes[n], mode) && s.nodes[n].peers == []
    ensures n in DoReceiveState(s, n).nodes && NodeRecords(DoReceiveState(s, n), n, DoReceiveState(s, n).nodes[n], mode)
  {
    var s', peers := DoReceiveState(s, n), Reachable(s, s.nodes[n].reply.replicas);
    ReceiveSteady(s, n);
    ReceivePeers(s, n);
    assert [] + peers == peers;
    SteadyRecords(s, s', n, peers);
    assert forall i :: 0 <= i < |peers| ==> RecordOk(s, n, peers[i]);
    SteadyRecords(s, s', n, s.nodes[n].backlog);
  }

  lemma ReceiveRecordsOf(s: System, mode: Mode, n: nat, m: nat)
    requires n != ORIGIN && Enabled(s, ReceiveState(n)) && m in s.nodes && m != n
    requires NodeRecords(s, n, s.nodes[n], mode) && NodeRecords(s, m, s.nodes[m], mode)
    ensures m in DoReceiveState(s, n).nodes && NodeRecords(DoReceiveState(s, n), m, DoReceiveState(s, n).nodes[m], mode)
  {
    var s' := DoReceiveState(s, n);
    ReceiveSteady(s, n);
    NodeRecordsKept(s, s', m, s.nodes[m], mode);
    assert RecordOk(s', m, Info(n, s.nodes[n].reply.id));
  }

  lemma ReceiveSees(s: System, n: nat, k: nat, m: nat)
    requires Enabled(s, ReceiveState(n)) && k in s.nodes && Live(s, m) && Sees(s.nodes[k], m)
    ensures k in DoReceiveState(s, n).nodes && Sees(DoReceiveState(s, n).nodes[k], m)
  {
    var peers := Reachable(s, s.nodes[n].reply.replicas);
    if k == n {
      KnowsAppend(s.nodes[n].peers, peers, m);
      if Knows(Offered(s.nodes[n]), m) {
        ReachableKnows(s, s.nodes[n].reply.replicas, m);
      }
    }
  }

  lemma ReceiveOrdered(s: System, n: nat)
    requires Ordered(s) && Enabled(s, ReceiveState(n))
    ensures Ordered(DoReceiveState(s, n)) && (Complete(s) ==> Complete(DoReceiveState(s, n)))
  {
    var s' := DoReceiveState(s, n);
    ReceiveSteady(s, n);
    forall k, m | Backup(s', k) && Backup(s', m) && Sees(s.nodes[k], m) ensures Sees(s'.nodes[k], m) {
      ReceiveSees(s, n, k, m);
    }
    SteadyOrdered(s, s');
  }

  lemma ReceiveHandshakes(s: System, n: nat)
    requires Handshakes(s) && ClosedAreDead(s) && Enabled(s, ReceiveState(n))
    ensures Handshakes(DoReceiveState(s, n)) && ClosedAreDead(DoReceiveState(s, n))
  {
  }

  lemma ReceiveProgress(s: System, mode: Mode, n: nat)
    requires Progress(s, mode) && Enabled(s, ReceiveState(n)) && (mode != Any || !s.nodes[n].leader)
    ensures Progress(DoReceiveState(s, n), mode)
  {
    var s' := DoReceiveState(s, n);
    forall m | m in s'.nodes && Exact(m, s'.nodes[m], mode) ensures ProgressOk(s'.nodes[m]) {
      assert ProgressOk(s.nodes[m]);
    }
  }

  lemma ReceivePresent(s: System, mode: Mode, n: nat)
    requires Present(s, mode) && Enabled(s, ReceiveState(n))
    ensures Present(DoReceiveState(s, n), mode)
  {
    var s', node := DoReceiveState(s, n), s.nodes[n];
    assert HandshakeOk(node);
    assert Quiet(s) ==> Joined(node);
    ReceiveSteady(s, n);
    forall m | m in s'.nodes ensures NodeRecords(s', m, s'.nodes[m], mode) {
      assert NodeRecords(s, n, s.nodes[n], mode) && NodeRecords(s, m, s.nodes[m], mode);
      if m == n {
        ReceiveOwnRecords(s, mode, n);
      } else {
        ReceiveRecordsOf(s, mode, n, m);
      }
    }
    ReceiveOrdered(s, n);
    ReceiveHandshakes(s, n);
    ReceiveProgress(s, mode, n);
    SteadyMessages(s, s', mode);
  }

  lemma ReceiveStateKeeps(s: System, mode: Mode, n: nat)
    requires Inv(s, mode) && Enabled(s, ReceiveState(n))
    ensures Inv(DoReceiveState(s, n), mode)
  {
    ReceiveSteady(s, n);
    ReceivePresent(s, mode, n);
    SteadyElected(s, DoReceiveState(s, n));
  }

  // ----- noticing crashes, and elections -----

  lemma CloseKeeps(s: System, mode: Mode, n: nat, p: nat)
    requires Inv(s, mode) && Enabled(s, Close(n, p))
    ensures Inv(DoClose(s, n, p), mode)
  {
    var node := s.nodes[n];
    NoChange(s, n, mode);
    LocalStep(s, n, node.(closed := node.closed + {p}, startElection := node.startElection || p in node.toLeader), mode);
  }

  lemma BeginKeeps(s: System, mode: Mode, n: nat)
    requires Inv(s, mode) && Enabled(s, Begin(n))
    ensures Inv(DoBegin(s, n), mode)
  {
    var node := s.nodes[n];
    var open := Open(node.peers, node.closed);
    NoChange(s, n, mode);
    OpenRecords(s, n, node, mode);
    forall m | Backup(s, m) && Sees(node, m) ensures Knows(open, m) {
      OpenKnows(s, n, m);
    }
    LocalStep(s, n, node.(peers := open, phase := Electing(0)), mode);
  }

  lemma PassKeeps(s: System, mode: Mode, n: nat, phase: Phase)
    requires Inv(s, mode) && Live(s, n) && s.nodes[n].phase.Electing?
    requires Exact(n, s.nodes[n], mode) ==> ProgressOk(s.nodes[n].(phase := phase))
    requires !phase.AwaitingState?
    ensures Inv(Put(s, n, s.nodes[n].(phase := phase)), mode)
  {
    NoChange(s, n, mode);
    LocalStep(s, n, s.nodes[n].(phase := phase), mode);
  }

  lemma AskKeeps(s: System, mode: Mode, n: nat, i: nat)
    requires Inv(s, mode) && Live(s, n) && s.nodes[n].phase == Electing(i) && i < |s.nodes[n].peers|
    requires s.nodes[n].peers[i].node != n && s.nodes[n].peers[i].id < s.nodes[n].id
    ensures Inv(DoNext(s, n), mode)
  {
    var node := s.nodes[n];
    NoChange(s, n, mode);
    assert Exact(n, node, mode) ==> RecordOk(s, n, node.peers[i]);
    PassKeeps(s, mode, n, AwaitingAnswer(i));
    PushKeeps(Put(s, n, node.(phase := AwaitingAnswer(i))), mode, n, node.peers[i].node, ElectionMsg(node.id));
    AskShape(s, n, i);
  }

  lemma AskShape(s: System, n: nat, i: nat)
    requires Live(s, n) && s.nodes[n].phase == Electing(i) && i < |s.nodes[n].peers|
    requires s.nodes[n].peers[i].node != n && s.nodes[n].peers[i].id < s.nodes[n].id
    ensures
      var node := s.nodes[n];
      DoNext(s, n) == Push(Put(s, n, node.(phase := AwaitingAnswer(i))), n, node.peers[i].node, ElectionMsg(node.id))
  {
  }

  lemma EndKeeps(s: System, mode: Mode, n: nat)
    requires Inv(s, mode) && Live(s, n) && s.nodes[n].phase.Electing? && s.nodes[n].phase.next >= |s.nodes[n].peers|
    ensures Inv(DoNext(s, n), mode)
  {
    NoChange(s, n, mode);
    PassKeeps(s, mode, n, Deciding);
  }

  lemma PassedOk(s: System, mode: Mode, n: nat, i: nat)
    requires Present(s, mode) && Live(s, n) && s.nodes[n].phase == Electing(i) && i < |s.nodes[n].peers|
    requires s.nodes[n].peers[i].node == n || s.nodes[n].peers[i].id >= s.nodes[n].id
    ensures Exact(n, s.nodes[n], mode) ==> ProgressOk(s.nodes[n].(phase := Electing(i + 1)))
  {
    if Exact(n, s.nodes[n], mode) {
      assert NodeRecords(s, n, s.nodes[n], mode) && ProgressOk(s.nodes[n]);
      assert RecordOk(s, n, s.nodes[n].peers[i]);
    }
  }

  lemma SkipKeeps(s: System, mode: Mode, n: nat, i: nat)
    requires Inv(s, mode) && Live(s, n) && s.nodes[n].phase == Electing(i) && i < |s.nodes[n].peers|
    requires s.nodes[n].peers[i].node == n || s.nodes[n].peers[i].id >= s.nodes[n].id
    ensures Inv(DoNext(s, n), mode)
  {
    PassedOk(s, mode, n, i);
    PassKeeps(s, mode, n, Electing(i + 1));
    SkipShape(s, n, i);
  }

  lemma SkipShape(s: System, n: nat, i: nat)
    requires Live(s, n) && s.nodes[n].phase == Electing(i) && i < |s.nodes[n].peers|
    requires s.nodes[n].peers[i].node == n || s.nodes[n].peers[i].id >= s.nodes[n].id
    ensures DoNext(s, n) == Put(s, n, s.nodes[n].(phase := Electing(i + 1)))
  {
  }

  lemma NextKeeps(s: System, mode: Mode, n: nat)
    requires Inv(s, mode) && Enabled(s, Next(n))
    ensures Inv(DoNext(s, n), mode)
  {
    var node := s.nodes[n];
    var i := node.phase.next;
    if i >= |node.peers| {
      EndKeeps(s, mode, n);
    } else if node.peers[i].node != n && node.peers[i].id < node.id {
      AskKeeps(s, mode, n, i);
    } else {
      SkipKeeps(s, mode, n, i);
    }
  }

  lemma WakeKeeps(s: System, mode: Mode, n: nat)
    requires Inv(s, mode) && Enabled(s, Wake(n))
    ensures Inv(DoWake(s, n), mode)
  {
    NoChange(s, n, mode);
    LocalStep(s, n, DoWake(s, n).nodes[n], mode);
  }

  lemma ResetKeeps(s: System, mode: Mode, n: nat)
    requires Inv(s, mode) && Enabled(s, Reset(n))
    ensures Inv(DoReset(s, n), mode)
  {
    NoChange(s, n, mode);
    LocalStep(s, n, DoReset(s, n).nodes[n], mode);
  }

  lemma CrashKeeps(s: System, mode: Mode, n: nat)
    requires Inv(s, mode) && Live(s, n)
    ensures Inv(Put(s, n, s.nodes[n].(alive := false)), mode)
  {
    NoChange(s, n, mode);
    LocalStep(s, n, s.nodes[n].(alive := false), mode);
  }

  /** A replica that has not lost has the least id of all live replicas. */
  lemma WinnerIsLeast(s: System, mode: Mode, n: nat)
    requires Inv(s, mode) && Live(s, n) && s.nodes[n].phase.Deciding? && !s.nodes[n].lostElection
    ensures Least(s, Info(n, s.nodes[n].id))
  {
    var node := s.nodes[n];
    NoChange(s, n, mode);
    if Exact(n, node, mode) {
      forall m | Backup(s, m) && m != n ensures node.id < GivenId(s.nodes[m]) {
        assert Before(s, m, n) || Before(s, n, m);
        if Sees(node, m) {
          var i :| 0 <= i < |node.peers| && node.peers[i].node == m;
          assert RecordOk(s, n, node.peers[i]);
        }
      }
    } else {
      var k :| 0 <= k < |s.elected| && s.elected[k] == Info(n, node.id);
      assert Least(s, s.elected[k]);
    }
  }

  lemma {:induction false} CoordinatorsKeep(s: System, mode: Mode, n: nat, infos: seq<Info>)
    requires Inv(s, mode)
    ensures Inv(SendCoordinator(s, n, infos), mode)
    ensures SendCoordinator(s, n, infos).nodes == s.nodes && SendCoordinator(s, n, infos).elected == s.elected
  {
    if infos != [] {
      CoordinatorsKeep(s, mode, n, infos[..|infos| - 1]);
      PushKeeps(SendCoordinator(s, n, infos[..|infos| - 1]), mode, n, infos[|infos| - 1].node, CoordinatorMsg);
    }
  }

  lemma {:induction false} CoordinatorNodes(s: System, n: nat, infos: seq<Info>)
    ensures SendCoordinator(s, n, infos).nodes == s.nodes
  {
    if infos != [] {
      CoordinatorNodes(s, n, infos[..|infos| - 1]);
    }
  }

  /** Becoming leader, with the history extended at once. */
  function Crown(s: System, n: nat): System
    requires n in s.nodes
  {
    Put(s, n, s.nodes[n].(leader := true)).(elected := s.elected + [Info(n, s.nodes[n].id)])
  }

  lemma CrownElected(s: System, n: nat)
    requires LeadersWereElected(s) && Increasing(s.elected) && Backup(s, n) && s.nodes[n].reply.NoReply?
    requires Least(s, Info(n, s.nodes[n].id))
    ensures LeadersWereElected(Crown(s, n)) && Increasing(Crown(s, n).elected)
  {
    var me, s' := Info(n, s.nodes[n].id), Crown(s, n);
    assert forall m :: Backup(s', m) <==> Backup(s, m);
    forall k | 0 <= k < |s'.elected| ensures Least(s', s'.elected[k]) {
      assert Least(s, s'.elected[k]);
    }
    forall m | m in s'.nodes && m != ORIGIN && s'.nodes[m].leader ensures Info(m, GivenId(s'.nodes[m])) in s'.elected {
      assert s'.elected[|s.elected|] == me;
    }
    forall k | 0 <= k < |s.elected| ensures s.elected[k] == me || s.elected[k].id < me.id {
      assert Least(s, s.elected[k]);
    }
  }

  lemma CrownKeeps(s: System, mode: Mode, n: nat)
    requires Inv(s, mode) && Backup(s, n) && !s.nodes[n].phase.AwaitingState? && Least(s, Info(n, s.nodes[n].id))
    ensures Inv(Crown(s, n), mode)
  {
    var node := s.nodes[n].(leader := true);
    NoChange(s, n, mode);
    LocalPresent(s, n, node, mode);
    assert Steady(Put(s, n, node), Crown(s, n));
    forall a: nat, b: nat, i | 0 <= i < |Link(Crown(s, n), a, b)|
      ensures MessageOk(Crown(s, n), mode, a, b, Link(Crown(s, n), a, b)[i])
    {
      assert MessageOk(Put(s, n, node), mode, a, b, Link(Put(s, n, node), a, b)[i]);
    }
    SameNodes(Put(s, n, node), Crown(s, n), mode);
    CrownElected(s, n);
  }

  lemma ResetsKeeps(s: System, mode: Mode, n: nat)
    requires Inv(s, mode) && Enabled(s, Decide(n))
    ensures Inv(Put(s, n, s.nodes[n].(phase := Resetting)), mode)
  {
    NoChange(s, n, mode);
    LocalStep(s, n, s.nodes[n].(phase := Resetting), mode);
  }

  lemma WinKeeps(s: System, mode: Mode, n: nat)
    requires Inv(s, mode) && Enabled(s, Decide(n)) && !s.nodes[n].lostElection
    ensures Inv(Crown(Put(s, n, s.nodes[n].(phase := Resetting)), n), mode)
  {
    var s1 := Put(s, n, s.nodes[n].(phase := Resetting));
    ResetsKeeps(s, mode, n);
    WinnerIsLeast(s, mode, n);
    assert Least(s1, Info(n, s.nodes[n].id)) by {
      forall m | Backup(s1, m) ensures Backup(s, m) {
      }
    }
    CrownKeeps(s1, mode, n);
  }

  lemma DecideKeeps(s: System, mode: Mode, n: nat)
    requires Inv(s, mode) && Enabled(s, Decide(n))
    ensures Inv(DoDecide(s, n), mode)
  {
    var node := s.nodes[n];
    if node.lostElection {
      ResetsKeeps(s, mode, n);
    } else {
      WinKeeps(s, mode, n);
      CoordinatorsKeep(Crown(Put(s, n, node.(phase := Resetting)), n), mode, n, node.peers);
      DecideShape(s, n);
    }
  }

  lemma DecideShape(s: System, n: nat)
    requires Enabled(s, Decide(n)) && !s.nodes[n].lostElection
    ensures DoDecide(s, n) ==
      SendCoordinator(Crown(Put(s, n, s.nodes[n].(phase := Resetting)), n), n, s.nodes[n].peers)
  {
    var node := s.nodes[n];
    var s2 := Put(s, n, node.(leader := true, phase := Resetting));
    var elected := s.elected + [Info(n, node.id)];
    assert Crown(Put(s, n, node.(phase := Resetting)), n).nodes == s2.nodes;
    CoordinatorsElected(s2, n, node.peers, elected);
  }

  lemma {:induction false} CoordinatorsElected(s: System, n: nat, infos: seq<Info>, elected: seq<Info>)
    ensures SendCoordinator(s.(elected := elected), n, infos) == SendCoordinator(s, n, infos).(elected := elected)
  {
    if infos != [] {
      CoordinatorsElected(s, n, infos[..|infos| - 1], elected);
    }
  }

  // ----- every step -----

  lemma StepKeeps(s: System, mode: Mode, a: Action)
    requires Inv(s, mode) && Enabled(s, a) && (a.Join? ==> a.leader == ORIGIN)
    requires mode.Right? ==> RecordsTaken(s, a)
    ensures Inv(Apply(s, a), mode)
  {
    match a
    case Join(n, l) => assert false;
    case Accept(n) => AcceptKeeps(s, mode, n);
    case ReceiveState(n) => ReceiveStateKeeps(s, mode, n);
    case LoseLeader(n) => LoseLeaderKeeps(s, mode, n);
    case Crash(n) => CrashKeeps(s, mode, n);
    case Deliver(x, b) => DeliverKeeps(s, mode, x, b);
    case Close(n, p) => CloseKeeps(s, mode, n, p);
    case Begin(n) => BeginKeeps(s, mode, n);
    case Next(n) => NextKeeps(s, mode, n);
    case Wake(n) => WakeKeeps(s, mode, n);
    case Decide(n) => DecideKeeps(s, mode, n);
    case Reset(n) => ResetKeeps(s, mode, n);
  }

  /** What holds under more assumptions holds without them. */
  lemma ModeIsInv(s: System, mode: Mode)
    requires Inv(s, mode)
    ensures Inv(s, Any)
  {
    forall n | n in s.nodes ensures NodeRecords(s, n, s.nodes[n], Any) {
      assert NodeRecords(s, n, s.nodes[n], mode);
    }
    forall a: nat, b: nat, i | 0 <= i < |Link(s, a, b)| ensures MessageOk(s, Any, a, b, Link(s, a, b)[i]) {
      assert MessageOk(s, mode, a, b, Link(s, a, b)[i]);
    }
  }

  /** Two live leaders are the same process. */
  lemma OneLeader(s: System, mode: Mode, n: nat, m: nat)
    requires Inv(s, mode) && Live(s, n) && Live(s, m) && s.nodes[n].leader && s.nodes[m].leader
    ensures n == m
  {
    var j :| 0 <= j < |s.elected| && s.elected[j] == Info(n, GivenId(s.nodes[n]));
    var k :| 0 <= k < |s.elected| && s.elected[k] == Info(m, GivenId(s.nodes[m]));
    assert Least(s, s.elected[j]) && Least(s, s.elected[k]);
  }
}
