/** While the original leader is alive: replicas join and may crash, and no election runs. */
module ElectionJoin {
  import opened Election
  import opened ElectionSafety

  // ----- the invariant -----

  ghost predicate OriginShape(s: System) {
    && ORIGIN in s.nodes
    && s.nodes[ORIGIN].leader && s.nodes[ORIGIN].id == -1
    && s.nodes[ORIGIN].phase.Accepting? && s.nodes[ORIGIN].reply.NoReply? && s.nodes[ORIGIN].toLeader == {}
  }

  ghost predicate BackupShape(node: Node) {
    && !node.leader && node.toLeader <= {ORIGIN}
    && if node.phase.AwaitingState? then
         && node.phase.to == ORIGIN && node.id == -1 && node.peers == [] && node.handlers == {} && node.closed == {}
         && (node.reply.Replicas? ==> node.reply.id >= 0)
       else
         node.phase.Accepting? && node.id >= 0 && node.reply.NoReply?
  }

  /** No flag is set, and no election message was ever sent. */
  ghost predicate NoElection(s: System) {
    && (forall n :: n in s.nodes ==>
          !s.nodes[n].startElection && !s.nodes[n].lostElection && !s.nodes[n].answered)
    && (forall a, b :: Link(s, a, b) == [])
    && s.elected == []
  }

  ghost predicate Shape(s: System) {
    && OriginShape(s)
    && (forall n :: n in s.nodes && n != ORIGIN ==> BackupShape(s.nodes[n]))
    && NoElection(s)
  }

  /** A record of a replica has the id that this replica has or is about to receive. */
  ghost predicate GivenOk(s: System, n: nat, info: Info) {
    && info.node != n && info.node != ORIGIN && info.node in s.nodes
    && info.id >= 0 && info.id == GivenId(s.nodes[info.node])
  }

  ghost predicate AllGiven(s: System, n: nat, infos: seq<Info>) {
    forall i :: 0 <= i < |infos| ==> GivenOk(s, n, infos[i])
  }

  ghost predicate GivenRecords(s: System) {
    forall n :: n in s.nodes ==>
      && AllGiven(s, n, s.nodes[n].peers)
      && AllGiven(s, n, Offered(s.nodes[n]))
      && (n != ORIGIN ==> AllGiven(s, n, s.nodes[n].backlog))
  }

  /** Who waits for the leader to accept it has no id yet, and waits once. */
  ghost predicate Newcomers(s: System)
    requires ORIGIN in s.nodes
  {
    var backlog := s.nodes[ORIGIN].backlog;
    && (forall i :: 0 <= i < |backlog| ==> Newcomer(s, backlog[i].node))
    && forall i, j :: 0 <= i < j < |backlog| ==> backlog[i].node != backlog[j].node
  }

  ghost predicate Newcomer(s: System, n: nat) {
    n in s.nodes && n != ORIGIN && s.nodes[n].phase.AwaitingState? && s.nodes[n].reply.NoReply?
  }

  /** A live replica that has an id, or that an id was sent to. */
  ghost predicate Member(s: System, n: nat) {
    Backup(s, n) && GivenId(s.nodes[n]) >= 0
  }

  ghost predicate DistinctGiven(s: System) {
    forall n, m :: Member(s, n) && Member(s, m) && n != m ==> GivenId(s.nodes[n]) != GivenId(s.nodes[m])
  }

  ghost predicate OriginKnows(s: System)
    requires ORIGIN in s.nodes
  {
    forall m :: Member(s, m) ==> Knows(s.nodes[ORIGIN].peers, m)
  }

  ghost predicate Linked(node: Node, m: nat) {
    Knows(node.peers, m) || Knows(node.backlog, m)
  }

  /** Any two members are connected, or one of them is about to connect to the other. */
  ghost predicate Paired(s: System, n: nat, m: nat)
    requires n in s.nodes && m in s.nodes
  {
    || Knows(Offered(s.nodes[n]), m)
    || Knows(Offered(s.nodes[m]), n)
    || (Linked(s.nodes[n], m) && Linked(s.nodes[m], n))
  }

  ghost predicate Pairs(s: System) {
    forall n, m :: Member(s, n) && Member(s, m) && n != m ==> Paired(s, n, m)
  }

  /** What holds before the first election, in any case. */
  ghost predicate Joining(s: System) {
    Shape(s) && GivenRecords(s) && Newcomers(s) && ClosedAreDead(s)
  }

  /** And when the leader hands out fresh ids. */
  ghost predicate Meeting(s: System)
    requires ORIGIN in s.nodes
  {
    DistinctGiven(s) && OriginKnows(s) && Pairs(s)
  }

  ghost predicate JoinInv(s: System) {
    Live(s, ORIGIN) && Joining(s) && Meeting(s)
  }

  lemma InitialJoinInv()
    ensures JoinInv(INITIAL_SYSTEM)
  {
  }

  // ----- lists of replicas -----

  lemma OpenGiven(s: System, n: nat)
    requires n in s.nodes && AllGiven(s, n, s.nodes[n].peers)
    ensures AllGiven(s, n, Open(s.nodes[n].peers, s.nodes[n].closed))
  {
    var node := s.nodes[n];
    var open := Open(node.peers, node.closed);
    forall i | 0 <= i < |open| ensures GivenOk(s, n, open[i]) {
      OpenIn(node.peers, node.closed, open[i]);
      var j :| 0 <= j < |node.peers| && node.peers[j] == open[i];
      assert GivenOk(s, n, node.peers[j]);
    }
  }

  lemma NodesKnows(infos: seq<Info>, m: nat)
    ensures m in Nodes(infos) <==> Knows(infos, m)
  {
  }

  /** Ids that were given stay as they are. */
  ghost predicate IdsKept(s: System, s': System) {
    forall m :: m in s.nodes ==>
      m in s'.nodes && (GivenId(s.nodes[m]) >= 0 ==> GivenId(s'.nodes[m]) == GivenId(s.nodes[m]))
  }

  lemma GivenKept(s: System, s': System, n: nat, infos: seq<Info>)
    requires IdsKept(s, s') && AllGiven(s, n, infos)
    ensures AllGiven(s', n, infos)
  {
    forall i | 0 <= i < |infos| ensures GivenOk(s', n, infos[i]) {
      assert GivenOk(s, n, infos[i]);
    }
  }

  // ----- a new process -----

  lemma JoinRecords(s: System, n: nat)
    requires GivenRecords(s) && Enabled(s, Join(n, ORIGIN))
    ensures GivenRecords(DoJoin(s, n, ORIGIN))
  {
    var s' := DoJoin(s, n, ORIGIN);
    forall m | m in s'.nodes
      ensures AllGiven(s', m, s'.nodes[m].peers) && AllGiven(s', m, Offered(s'.nodes[m]))
      ensures m != ORIGIN ==> AllGiven(s', m, s'.nodes[m].backlog)
    {
      if m in s.nodes {
        GivenKept(s, s', m, s.nodes[m].peers);
        GivenKept(s, s', m, Offered(s.nodes[m]));
        if m != ORIGIN {
          GivenKept(s, s', m, s.nodes[m].backlog);
        }
      }
    }
  }

  lemma JoinPairs(s: System, n: nat)
    requires OriginShape(s) && DistinctGiven(s) && OriginKnows(s) && Pairs(s) && Enabled(s, Join(n, ORIGIN))
    ensures
      var s' := DoJoin(s, n, ORIGIN);
      DistinctGiven(s') && OriginKnows(s') && Pairs(s')
  {
    var s' := DoJoin(s, n, ORIGIN);
    forall m ensures Member(s', m) <==> Member(s, m) {
    }
    forall a, b | Member(s', a) && Member(s', b) && a != b
      ensures Paired(s', a, b) && GivenId(s'.nodes[a]) != GivenId(s'.nodes[b])
    {
      assert Paired(s, a, b);
    }
  }

  lemma JoinNewcomers(s: System, n: nat)
    requires OriginShape(s) && Newcomers(s) && Enabled(s, Join(n, ORIGIN))
    ensures ORIGIN in DoJoin(s, n, ORIGIN).nodes && Newcomers(DoJoin(s, n, ORIGIN))
  {
    var s' := DoJoin(s, n, ORIGIN);
    var backlog := s'.nodes[ORIGIN].backlog;
    forall i | 0 <= i < |backlog| ensures Newcomer(s', backlog[i].node) {
      if i < |backlog| - 1 {
        assert Newcomer(s, s.nodes[ORIGIN].backlog[i].node);
      }
    }
    forall i, j | 0 <= i < j < |backlog| ensures backlog[i].node != backlog[j].node {
      assert Newcomer(s, s.nodes[ORIGIN].backlog[i].node);
    }
  }

  lemma JoinShape(s: System, n: nat)
    requires Shape(s) && Enabled(s, Join(n, ORIGIN))
    ensures Shape(DoJoin(s, n, ORIGIN))
  {
    forall a, b ensures Link(DoJoin(s, n, ORIGIN), a, b) == [] {
      assert Link(s, a, b) == [];
    }
  }

  lemma JoinClosed(s: System, n: nat)
    requires OriginShape(s) && ClosedAreDead(s) && Enabled(s, Join(n, ORIGIN))
    ensures ClosedAreDead(DoJoin(s, n, ORIGIN))
  {
  }

  lemma JoinKeeps(s: System, n: nat)
    requires Joining(s) && Enabled(s, Join(n, ORIGIN))
    ensures Joining(DoJoin(s, n, ORIGIN))
  {
    JoinRecords(s, n);
    JoinNewcomers(s, n);
    JoinShape(s, n);
    JoinClosed(s, n);
  }

  // ----- the leader accepts a newcomer and gives it an id -----

  lemma LeaderAcceptNewcomers(s: System)
    requires OriginShape(s) && Newcomers(s) && Enabled(s, Accept(ORIGIN))
    ensures
      var s' := DoAccept(s, ORIGIN);
      ORIGIN in s'.nodes && Newcomers(s')
  {
    var s' := DoAccept(s, ORIGIN);
    var backlog := s.nodes[ORIGIN].backlog;
    assert Newcomer(s, backlog[0].node);
    forall i | 0 <= i < |backlog| - 1 ensures Newcomer(s', backlog[1..][i].node) {
      assert Newcomer(s, backlog[i + 1].node);
    }
  }

  lemma LeaderAcceptClosed(s: System)
    requires Shape(s) && Newcomers(s) && ClosedAreDead(s) && Enabled(s, Accept(ORIGIN))
    ensures ClosedAreDead(DoAccept(s, ORIGIN)) && IdsKept(s, DoAccept(s, ORIGIN))
  {
    assert Newcomer(s, s.nodes[ORIGIN].backlog[0].node);
    assert BackupShape(s.nodes[s.nodes[ORIGIN].backlog[0].node]);
  }

  lemma LeaderAcceptShape(s: System)
    requires Shape(s) && Newcomers(s) && ClosedAreDead(s) && Enabled(s, Accept(ORIGIN))
    ensures
      var s' := DoAccept(s, ORIGIN);
      Shape(s') && Newcomers(s') && ClosedAreDead(s') && IdsKept(s, s')
  {
    var s' := DoAccept(s, ORIGIN);
    LeaderAcceptNewcomers(s);
    LeaderAcceptClosed(s);
    assert Newcomer(s, s.nodes[ORIGIN].backlog[0].node);
    assert BackupShape(s.nodes[s.nodes[ORIGIN].backlog[0].node]);
    forall a, b ensures Link(s', a, b) == [] {
      assert Link(s, a, b) == [];
    }
  }

  lemma GivenToNewcomer(s: System, s': System, h: nat, infos: seq<Info>)
    requires h in s.nodes && GivenId(s.nodes[h]) < 0 && AllGiven(s, ORIGIN, infos) && AllGiven(s', ORIGIN, infos)
    ensures AllGiven(s', h, infos)
  {
    forall i | 0 <= i < |infos| ensures GivenOk(s', h, infos[i]) {
      assert GivenOk(s, ORIGIN, infos[i]) && GivenOk(s', ORIGIN, infos[i]);
    }
  }

  lemma LeaderAcceptRecords(s: System)
    requires Shape(s) && Newcomers(s) && ClosedAreDead(s) && GivenRecords(s) && Enabled(s, Accept(ORIGIN))
    ensures GivenRecords(DoAccept(s, ORIGIN))
  {
    var s' := DoAccept(s, ORIGIN);
    var origin := s.nodes[ORIGIN];
    var h, open := origin.backlog[0].node, Open(origin.peers, origin.closed);
    LeaderAcceptShape(s);
    assert Newcomer(s, h) && BackupShape(s.nodes[h]);
    OpenGiven(s, ORIGIN);
    GivenKept(s, s', ORIGIN, open);
    GivenToNewcomer(s, s', h, open);
    forall m | m in s'.nodes
      ensures AllGiven(s', m, s'.nodes[m].peers) && AllGiven(s', m, Offered(s'.nodes[m]))
      ensures m != ORIGIN ==> AllGiven(s', m, s'.nodes[m].backlog)
    {
      if m == ORIGIN {
        assert GivenOk(s', ORIGIN, Info(h, |open|));
      } else {
        GivenKept(s, s', m, s.nodes[m].peers);
        GivenKept(s, s', m, s.nodes[m].backlog);
        if m != h {
          GivenKept(s, s', m, Offered(s.nodes[m]));
        }
      }
    }
  }

  lemma LeaderAcceptPairs(s: System)
    requires Shape(s) && Newcomers(s) && ClosedAreDead(s) && Enabled(s, Accept(ORIGIN)) && FreshId(s, ORIGIN)
    requires DistinctGiven(s) && OriginKnows(s) && Pairs(s)
    ensures
      var s' := DoAccept(s, ORIGIN);
      ORIGIN in s'.nodes && DistinctGiven(s') && OriginKnows(s') && Pairs(s')
  {
    var s' := DoAccept(s, ORIGIN);
    var origin := s.nodes[ORIGIN];
    var h, open := origin.backlog[0].node, Open(origin.peers, origin.closed);
    assert Newcomer(s, h) && BackupShape(s.nodes[h]);
    forall m ensures Member(s', m) ==> m == h || Member(s, m) {
    }
    forall m | Member(s', m) ensures Knows(open + [Info(h, |open|)], m) {
      KnowsAppend(open, [Info(h, |open|)], m);
      if m == h {
        assert [Info(h, |open|)][0].node == h;
      } else {
        OpenKnows(s, ORIGIN, m);
      }
    }
    forall a, b | Member(s', a) && Member(s', b) && a != b
      ensures Paired(s', a, b) && GivenId(s'.nodes[a]) != GivenId(s'.nodes[b])
    {
      if a == h {
        OpenKnows(s, ORIGIN, b);
      } else if b == h {
        OpenKnows(s, ORIGIN, a);
      } else {
        assert Paired(s, a, b);
      }
    }
  }

  lemma LeaderAcceptKeeps(s: System)
    requires Joining(s) && Enabled(s, Accept(ORIGIN))
    ensures Joining(DoAccept(s, ORIGIN))
  {
    LeaderAcceptShape(s);
    LeaderAcceptRecords(s);
  }

  // ----- a backup accepts a replica that connects to it -----

  lemma BackupAcceptRecords(s: System, n: nat)
    requires Shape(s) && GivenRecords(s) && ClosedAreDead(s) && Enabled(s, Accept(n)) && n != ORIGIN
    ensures GivenRecords(DoAccept(s, n)) && ClosedAreDead(DoAccept(s, n)) && IdsKept(s, DoAccept(s, n))
  {
    var s' := DoAccept(s, n);
    var node := s.nodes[n];
    var hello, open := node.backlog[0], Open(node.peers, node.closed);
    OpenGiven(s, n);
    forall m | m in s'.nodes
      ensures AllGiven(s', m, s'.nodes[m].peers) && AllGiven(s', m, Offered(s'.nodes[m]))
      ensures m != ORIGIN ==> AllGiven(s', m, s'.nodes[m].backlog)
    {
      GivenKept(s, s', m, Offered(s.nodes[m]));
      if m == n {
        assert GivenOk(s, n, hello);
        GivenKept(s, s', n, open);
        GivenKept(s, s', n, node.backlog);
        assert forall i :: 0 <= i < |node.backlog[1..]| ==> node.backlog[1..][i] == node.backlog[i + 1];
      } else {
        GivenKept(s, s', m, s.nodes[m].peers);
        if m != ORIGIN {
          GivenKept(s, s', m, s.nodes[m].backlog);
        }
      }
    }
  }

  lemma BackupAcceptLinked(s: System, n: nat, m: nat)
    requires ClosedAreDead(s) && Enabled(s, Accept(n)) && !s.nodes[n].leader
    requires Live(s, m) && Linked(s.nodes[n], m)
    ensures Linked(DoAccept(s, n).nodes[n], m)
  {
    var node := s.nodes[n];
    var hello, open := node.backlog[0], Open(node.peers, node.closed);
    KnowsAppend(open, [hello], m);
    if Knows(node.peers, m) {
      OpenKnows(s, n, m);
    } else {
      var i :| 0 <= i < |node.backlog| && node.backlog[i].node == m;
      if i == 0 {
        assert [hello][0].node == m;
      } else {
        assert node.backlog[1..][i - 1].node == m;
      }
    }
  }

  lemma BackupAcceptPairs(s: System, n: nat)
    requires Shape(s) && ClosedAreDead(s) && Enabled(s, Accept(n)) && n != ORIGIN
    requires DistinctGiven(s) && OriginKnows(s) && Pairs(s)
    ensures
      var s' := DoAccept(s, n);
      ORIGIN in s'.nodes && DistinctGiven(s') && OriginKnows(s') && Pairs(s')
  {
    var s' := DoAccept(s, n);
    assert BackupShape(s.nodes[n]);
    forall m ensures Member(s', m) <==> Member(s, m) {
    }
    forall a, b | Member(s', a) && Member(s', b) && a != b ensures Paired(s', a, b) {
      assert Paired(s, a, b);
      if Linked(s.nodes[n], a) {
        BackupAcceptLinked(s, n, a);
      }
      if Linked(s.nodes[n], b) {
        BackupAcceptLinked(s, n, b);
      }
    }
  }

  lemma BackupAcceptShape(s: System, n: nat)
    requires Shape(s) && Newcomers(s) && Enabled(s, Accept(n)) && n != ORIGIN
    ensures Shape(DoAccept(s, n)) && Newcomers(DoAccept(s, n))
  {
    var s' := DoAccept(s, n);
    assert BackupShape(s.nodes[n]);
    forall a, b ensures Link(s', a, b) == [] {
      assert Link(s, a, b) == [];
    }
    forall i | 0 <= i < |s.nodes[ORIGIN].backlog| ensures Newcomer(s', s.nodes[ORIGIN].backlog[i].node) {
      assert Newcomer(s, s.nodes[ORIGIN].backlog[i].node);
    }
  }

  lemma BackupAcceptKeeps(s: System, n: nat)
    requires Joining(s) && Enabled(s, Accept(n)) && n != ORIGIN
    ensures Joining(DoAccept(s, n))
  {
    BackupAcceptShape(s, n);
    BackupAcceptRecords(s, n);
  }

  // ----- a new replica receives its id and connects to the others -----

  lemma OriginNotOffered(s: System, n: nat)
    requires n in s.nodes && GivenRecords(s) && s.nodes[n].reply.Replicas?
    ensures ORIGIN !in Nodes(Reachable(s, s.nodes[n].reply.replicas))
  {
    var infos := s.nodes[n].reply.replicas;
    assert AllGiven(s, n, Offered(s.nodes[n]));
    ReachableGiven(s, n, infos);
    forall i | 0 <= i < |Reachable(s, infos)| ensures Reachable(s, infos)[i].node != ORIGIN {
      assert GivenOk(s, n, Reachable(s, infos)[i]);
    }
  }

  lemma ReceiveShape(s: System, n: nat)
    requires Shape(s) && GivenRecords(s) && Enabled(s, ReceiveState(n))
    ensures Shape(DoReceiveState(s, n))
  {
    var s' := DoReceiveState(s, n);
    assert n != ORIGIN && BackupShape(s.nodes[n]);
    OriginNotOffered(s, n);
    assert s'.nodes[ORIGIN] == s.nodes[ORIGIN];
    forall m | m in s'.nodes && m != ORIGIN ensures BackupShape(s'.nodes[m]) {
      assert BackupShape(s.nodes[m]);
    }
    assert NoElection(s') by {
      forall a, b ensures Link(s', a, b) == [] {
        assert Link(s, a, b) == [];
      }
    }
  }

  lemma ReceiveNewcomers(s: System, n: nat)
    requires Shape(s) && Newcomers(s) && GivenRecords(s) && Enabled(s, ReceiveState(n))
    ensures ORIGIN in DoReceiveState(s, n).nodes && Newcomers(DoReceiveState(s, n))
  {
    var s' := DoReceiveState(s, n);
    assert n != ORIGIN && BackupShape(s.nodes[n]);
    OriginNotOffered(s, n);
    assert s'.nodes[ORIGIN] == s.nodes[ORIGIN];
    forall i | 0 <= i < |s.nodes[ORIGIN].backlog| ensures Newcomer(s', s.nodes[ORIGIN].backlog[i].node) {
      assert Newcomer(s, s.nodes[ORIGIN].backlog[i].node);
    }
  }

  lemma ReceiveClosed(s: System, n: nat)
    requires ClosedAreDead(s) && Enabled(s, ReceiveState(n))
    ensures ClosedAreDead(DoReceiveState(s, n)) && IdsKept(s, DoReceiveState(s, n))
  {
  }

  lemma ReceiveOthers(s: System, n: nat)
    requires Shape(s) && Newcomers(s) && ClosedAreDead(s) && GivenRecords(s) && Enabled(s, ReceiveState(n))
    ensures
      var s' := DoReceiveState(s, n);
      ORIGIN in s'.nodes && Newcomers(s') && ClosedAreDead(s') && IdsKept(s, s')
  {
    ReceiveNewcomers(s, n);
    ReceiveClosed(s, n);
  }

  lemma ReachableGiven(s: System, n: nat, infos: seq<Info>)
    requires AllGiven(s, n, infos)
    ensures AllGiven(s, n, Reachable(s, infos))
  {
    var peers := Reachable(s, infos);
    forall i | 0 <= i < |peers| ensures GivenOk(s, n, peers[i]) {
      ReachableIn(s, infos, peers[i]);
      var j :| 0 <= j < |infos| && infos[j] == peers[i];
      assert GivenOk(s, n, infos[j]);
    }
  }

  lemma ReceivePeersOf(s: System, n: nat, m: nat)
    requires GivenRecords(s) && Enabled(s, ReceiveState(n)) && m in s.nodes
    requires IdsKept(s, DoReceiveState(s, n)) && AllGiven(s, n, Reachable(s, s.nodes[n].reply.replicas))
    ensures
      var s' := DoReceiveState(s, n);
      m in s'.nodes && AllGiven(s', m, s'.nodes[m].peers) && AllGiven(s', m, Offered(s'.nodes[m]))
  {
    var s' := DoReceiveState(s, n);
    GivenKept(s, s', m, s.nodes[m].peers);
    GivenKept(s, s', m, Offered(s.nodes[m]));
    if m == n {
      GivenKept(s, s', n, Reachable(s, s.nodes[n].reply.replicas));
    }
  }

  lemma ReceiveBacklogOf(s: System, n: nat, m: nat)
    requires GivenRecords(s) && Enabled(s, ReceiveState(n)) && m in s.nodes && s.nodes[n].reply.id >= 0
    requires IdsKept(s, DoReceiveState(s, n)) && n != ORIGIN && m != ORIGIN
    ensures m in DoReceiveState(s, n).nodes && AllGiven(DoReceiveState(s, n), m, DoReceiveState(s, n).nodes[m].backlog)
  {
    GivenKept(s, DoReceiveState(s, n), m, s.nodes[m].backlog);
  }

  lemma ReceiveRecords(s: System, n: nat)
    requires Shape(s) && Newcomers(s) && ClosedAreDead(s) && GivenRecords(s) && Enabled(s, ReceiveState(n))
    ensures GivenRecords(DoReceiveState(s, n))
  {
    var s' := DoReceiveState(s, n);
    assert n != ORIGIN && BackupShape(s.nodes[n]);
    ReceiveClosed(s, n);
    ReachableGiven(s, n, Offered(s.nodes[n]));
    OriginNotOffered(s, n);
    forall m | m in s'.nodes
      ensures AllGiven(s', m, s'.nodes[m].peers) && AllGiven(s', m, Offered(s'.nodes[m]))
      ensures m != ORIGIN ==> AllGiven(s', m, s'.nodes[m].backlog)
    {
      ReceivePeersOf(s, n, m);
      if m != ORIGIN {
        ReceiveBacklogOf(s, n, m);
      }
    }
  }

  /** Two members that are not the new replica stay as connected as they were. */
  lemma ReceiveLinked(s: System, n: nat, a: nat, b: nat)
    requires Enabled(s, ReceiveState(n)) && a in s.nodes && Linked(s.nodes[a], b)
    ensures a in DoReceiveState(s, n).nodes && Linked(DoReceiveState(s, n).nodes[a], b)
  {
    var reply := s.nodes[n].reply;
    KnowsAppend(s.nodes[a].peers, Reachable(s, reply.replicas), b);
    KnowsAppend(s.nodes[a].backlog, [Info(n, reply.id)], b);
  }

  /** The new replica and a live one it was told about are connected both ways. */
  lemma ReceiveConnects(s: System, n: nat, m: nat)
    requires Enabled(s, ReceiveState(n)) && m != n && Live(s, m) && Knows(s.nodes[n].reply.replicas, m)
    ensures
      var s' := DoReceiveState(s, n);
      m in s'.nodes && Linked(s'.nodes[n], m) && Linked(s'.nodes[m], n)
  {
    var reply := s.nodes[n].reply;
    var peers := Reachable(s, reply.replicas);
    var i :| 0 <= i < |reply.replicas| && reply.replicas[i].node == m;
    ReachableIn(s, reply.replicas, reply.replicas[i]);
    KnowsIn(peers, reply.replicas[i]);
    NodesKnows(peers, m);
    KnowsAppend(s.nodes[n].peers, peers, m);
    assert [Info(n, reply.id)][0].node == n;
    KnowsAppend(s.nodes[m].backlog, [Info(n, reply.id)], n);
  }

  lemma ReceivePaired(s: System, n: nat, a: nat, b: nat)
    requires Enabled(s, ReceiveState(n)) && a != b && Live(s, a) && Live(s, b) && Paired(s, a, b)
    ensures
      var s' := DoReceiveState(s, n);
      a in s'.nodes && b in s'.nodes && Paired(s', a, b)
  {
    if Linked(s.nodes[a], b) && Linked(s.nodes[b], a) {
      ReceiveLinked(s, n, a, b);
      ReceiveLinked(s, n, b, a);
    } else if Knows(Offered(s.nodes[a]), b) {
      if a == n {
        ReceiveConnects(s, n, b);
      }
    } else if b == n {
      ReceiveConnects(s, n, a);
    }
  }

  lemma ReceivePairs(s: System, n: nat)
    requires Shape(s) && DistinctGiven(s) && OriginKnows(s) && Pairs(s) && Enabled(s, ReceiveState(n))
    ensures
      var s' := DoReceiveState(s, n);
      ORIGIN in s'.nodes && DistinctGiven(s') && OriginKnows(s') && Pairs(s')
  {
    var s' := DoReceiveState(s, n);
    assert n != ORIGIN && BackupShape(s.nodes[n]);
    forall m ensures Member(s', m) <==> Member(s, m) {
    }
    forall m ensures Member(s, m) ==> GivenId(s'.nodes[m]) == GivenId(s.nodes[m]) {
    }
    forall a, b | Member(s', a) && Member(s', b) && a != b ensures Paired(s', a, b) {
      assert Paired(s, a, b);
      ReceivePaired(s, n, a, b);
    }
  }

  lemma ReceiveKeeps(s: System, n: nat)
    requires Joining(s) && Enabled(s, ReceiveState(n))
    ensures Joining(DoReceiveState(s, n))
  {
    ReceiveShape(s, n);
    ReceiveOthers(s, n);
    ReceiveRecords(s, n);
  }

  // ----- a replica crashes, and its peers notice -----

  /** One replica dies, or sees a connection to a dead one end. */
  ghost predicate Departure(s: System, n: nat, node: Node) {
    && n in s.nodes
    && node == s.nodes[n].(alive := node.alive, closed := node.closed)
    && (node.alive ==> s.nodes[n].alive)
    && (s.nodes[n].phase.AwaitingState? ==> node.closed == {})
    && forall p :: p in node.closed ==> p in s.nodes && !s.nodes[p].alive
  }

  lemma DepartureShape(s: System, n: nat, node: Node)
    requires Shape(s) && Newcomers(s) && ClosedAreDead(s) && Departure(s, n, node)
    ensures Shape(Put(s, n, node)) && Newcomers(Put(s, n, node)) && ClosedAreDead(Put(s, n, node))
  {
    var s' := Put(s, n, node);
    forall m | m in s'.nodes && m != ORIGIN ensures BackupShape(s'.nodes[m]) {
      assert BackupShape(s.nodes[m]);
    }
    assert NoElection(s') by {
      forall a, b ensures Link(s', a, b) == [] {
        assert Link(s, a, b) == [];
      }
    }
    forall i | 0 <= i < |s.nodes[ORIGIN].backlog| ensures Newcomer(s', s.nodes[ORIGIN].backlog[i].node) {
      assert Newcomer(s, s.nodes[ORIGIN].backlog[i].node);
    }
  }

  lemma DepartureRecords(s: System, n: nat, node: Node)
    requires GivenRecords(s) && Departure(s, n, node)
    ensures GivenRecords(Put(s, n, node))
  {
    var s' := Put(s, n, node);
    assert IdsKept(s, s');
    forall m | m in s'.nodes
      ensures AllGiven(s', m, s'.nodes[m].peers) && AllGiven(s', m, Offered(s'.nodes[m]))
      ensures m != ORIGIN ==> AllGiven(s', m, s'.nodes[m].backlog)
    {
      GivenKept(s, s', m, s.nodes[m].peers);
      GivenKept(s, s', m, Offered(s.nodes[m]));
      if m != ORIGIN {
        GivenKept(s, s', m, s.nodes[m].backlog);
      }
    }
  }

  lemma DeparturePairs(s: System, n: nat, node: Node)
    requires ORIGIN in s.nodes && DistinctGiven(s) && OriginKnows(s) && Pairs(s) && Departure(s, n, node)
    ensures DistinctGiven(Put(s, n, node)) && OriginKnows(Put(s, n, node)) && Pairs(Put(s, n, node))
  {
    var s' := Put(s, n, node);
    forall m ensures Member(s', m) ==> Member(s, m) {
    }
    forall a, b | Member(s', a) && Member(s', b) && a != b ensures Paired(s', a, b) {
      assert Paired(s, a, b);
    }
  }

  lemma DepartureKeeps(s: System, n: nat, node: Node)
    requires Joining(s) && Departure(s, n, node)
    ensures Joining(Put(s, n, node))
  {
    DepartureShape(s, n, node);
    DepartureRecords(s, n, node);
  }

  lemma ClosingDeparts(s: System, n: nat, p: nat)
    requires Joining(s) && Live(s, ORIGIN) && Enabled(s, Close(n, p))
    ensures Departure(s, n, DoClose(s, n, p).nodes[n])
    ensures DoClose(s, n, p) == Put(s, n, DoClose(s, n, p).nodes[n])
  {
    assert n != ORIGIN ==> BackupShape(s.nodes[n]);
  }

  lemma CrashDeparts(s: System, n: nat)
    requires Joining(s) && Live(s, n)
    ensures Departure(s, n, s.nodes[n].(alive := false))
  {
    assert n != ORIGIN ==> BackupShape(s.nodes[n]);
  }

  // ----- the original leader crashes -----

  function WithoutOrigin(s: System): System
    requires ORIGIN in s.nodes
  {
    Put(s, ORIGIN, s.nodes[ORIGIN].(alive := false))
  }

  lemma OriginCrashRecords(s: System, mode: Mode)
    requires Joining(s)
    ensures Handshakes(WithoutOrigin(s)) && Records(WithoutOrigin(s), mode) && ClosedAreDead(WithoutOrigin(s))
  {
    var s' := WithoutOrigin(s);
    forall n | n in s.nodes && n != ORIGIN ensures BackupShape(s.nodes[n]) {
    }
    forall n | n in s'.nodes ensures NodeRecords(s', n, s'.nodes[n], mode) {
      GivenAreRecords(s, n, s.nodes[n].peers);
      GivenAreRecords(s, n, Offered(s.nodes[n]));
      if n != ORIGIN {
        GivenAreRecords(s, n, s.nodes[n].backlog);
      }
    }
  }

  lemma GivenAreRecords(s: System, n: nat, infos: seq<Info>)
    requires ORIGIN in s.nodes && AllGiven(s, n, infos)
    ensures RecordsOf(WithoutOrigin(s), n, infos)
    ensures forall i :: 0 <= i < |infos| ==> infos[i].node in s.nodes
  {
    forall i | 0 <= i < |infos| ensures RecordOk(WithoutOrigin(s), n, infos[i]) && infos[i].node in s.nodes {
      assert GivenOk(s, n, infos[i]);
    }
  }

  lemma OriginCrashQuiet(s: System, mode: Mode)
    requires Shape(s)
    ensures
      var s' := WithoutOrigin(s);
      && Messages(s', mode) && Progress(s', mode) && LeadersWereElected(s') && Increasing(s'.elected)
      && (mode.Calm? && Quiet(s) ==> Quiet(s'))
  {
    var s' := WithoutOrigin(s);
    forall n | n in s.nodes && n != ORIGIN ensures BackupShape(s.nodes[n]) {
    }
    forall a: nat, b: nat ensures Link(s', a, b) == [] {
      assert Link(s, a, b) == [];
    }
  }

  /** The original leader crashes when the backups are in order: elections may begin. */
  lemma OriginCrash(s: System, mode: Mode)
    requires Joining(s) && Ordered(s) && !mode.Calm?
    ensures Inv(WithoutOrigin(s), mode)
  {
    OriginCrashRecords(s, mode);
    OriginCrashQuiet(s, mode);
    SteadyOrdered(s, WithoutOrigin(s));
  }

  /** Between handshakes, replicas with distinct ids all know each other. */
  lemma QuietIsOrdered(s: System)
    requires Shape(s) && Meeting(s) && Quiet(s)
    ensures Ordered(s) && Complete(s)
  {
    forall n | n in s.nodes && n != ORIGIN ensures BackupShape(s.nodes[n]) {
    }
    forall n | Backup(s, n) ensures Joined(s.nodes[n]) && Member(s, n) {
    }
    forall n, m | Backup(s, n) && Backup(s, m) && n != m
      ensures Sees(s.nodes[n], m) && GivenId(s.nodes[n]) != GivenId(s.nodes[m])
    {
      assert Paired(s, n, m);
    }
  }

  lemma CalmCrash(s: System)
    requires JoinInv(s) && Quiet(s)
    ensures Ordered(s) && Inv(WithoutOrigin(s), Calm)
  {
    QuietIsOrdered(s);
    OriginCrashRecords(s, Calm);
    OriginCrashQuiet(s, Calm);
    SteadyOrdered(s, WithoutOrigin(s));
  }

  // ----- every step -----

  lemma JoinStepKeeps(s: System, a: Action)
    requires Joining(s) && Live(s, ORIGIN) && Enabled(s, a) && (a.Join? ==> a.leader == ORIGIN)
    ensures Joining(Apply(s, a))
  {
    forall n | n in s.nodes && n != ORIGIN ensures BackupShape(s.nodes[n]) {
    }
    assert forall x: nat, b: nat :: Link(s, x, b) == [];
    match a
    case Join(n, l) => JoinKeeps(s, n);
    case Accept(n) =>
      if n == ORIGIN {
        LeaderAcceptKeeps(s);
      } else {
        BackupAcceptKeeps(s, n);
      }
    case ReceiveState(n) => ReceiveKeeps(s, n);
    case LoseLeader(n) => assert false;
    case Crash(n) =>
      CrashDeparts(s, n);
      DepartureKeeps(s, n, s.nodes[n].(alive := false));
    case Deliver(x, b) => assert false;
    case Close(n, p) =>
      ClosingDeparts(s, n, p);
      DepartureKeeps(s, n, DoClose(s, n, p).nodes[n]);
    case Begin(n) => assert false;
    case Next(n) => assert false;
    case Wake(n) => assert false;
    case Decide(n) => assert false;
    case Reset(n) => assert false;
  }

  /** With fresh ids, replicas stay apart, and connected or about to be. */
  lemma MeetingStepKeeps(s: System, a: Action)
    requires JoinInv(s) && Enabled(s, a) && Disciplined(s, a) && a != Crash(ORIGIN)
    ensures JoinInv(Apply(s, a))
  {
    JoinStepKeeps(s, a);
    forall n | n in s.nodes && n != ORIGIN ensures BackupShape(s.nodes[n]) {
    }
    assert forall x: nat, b: nat :: Link(s, x, b) == [];
    match a
    case Join(n, l) => JoinPairs(s, n);
    case Accept(n) =>
      if n == ORIGIN {
        LeaderAcceptPairs(s);
      } else {
        BackupAcceptPairs(s, n);
      }
    case ReceiveState(n) =>
      ReceivePairs(s, n);
      OriginNotOffered(s, n);
    case LoseLeader(n) => assert false;
    case Crash(n) =>
      CrashDeparts(s, n);
      DeparturePairs(s, n, s.nodes[n].(alive := false));
    case Deliver(x, b) => assert false;
    case Close(n, p) =>
      ClosingDeparts(s, n, p);
      DeparturePairs(s, n, DoClose(s, n, p).nodes[n]);
    case Begin(n) => assert false;
    case Next(n) => assert false;
    case Wake(n) => assert false;
    case Decide(n) => assert false;
    case Reset(n) => assert false;
  }
}
