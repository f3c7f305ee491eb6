/**
 * When two live leaders can follow: exactly when the original leader's crash finds two live backups that are
 * not in order; and with crashes between handshakes, exactly when an id is handed out that is in use.
 */
module ElectionExact {
  import opened Election
  import opened ElectionSafety
  import opened ElectionJoin
  import opened ElectionRuns
  import opened ElectionTraces

  // ----- every recorded replica has a handler -----

  ghost predicate WiredNode(n: nat, node: Node) {
    && (forall i :: 0 <= i < |node.peers| ==> node.peers[i].node in node.handlers)
    && (n != ORIGIN && !node.phase.AwaitingState? ==> ORIGIN in node.handlers && ORIGIN in node.toLeader)
  }

  ghost predicate Wired(s: System) {
    forall n :: n in s.nodes ==> WiredNode(n, s.nodes[n])
  }

  lemma OpenWired(node: Node)
    requires forall i :: 0 <= i < |node.peers| ==> node.peers[i].node in node.handlers
    ensures forall i :: 0 <= i < |Open(node.peers, node.closed)| ==> Open(node.peers, node.closed)[i].node in node.handlers
  {
    var open := Open(node.peers, node.closed);
    forall i | 0 <= i < |open| ensures open[i].node in node.handlers {
      OpenIn(node.peers, node.closed, open[i]);
    }
  }

  lemma AcceptWired(s: System, n: nat)
    requires Wired(s) && Enabled(s, Accept(n))
    ensures Wired(DoAccept(s, n))
  {
    assert WiredNode(n, s.nodes[n]);
    OpenWired(s.nodes[n]);
  }

  lemma ReceiveWired(s: System, n: nat)
    requires Wired(s) && Enabled(s, ReceiveState(n)) && s.nodes[n].phase.to == ORIGIN
    ensures Wired(DoReceiveState(s, n))
  {
    var s' := DoReceiveState(s, n);
    var peers := Reachable(s, s.nodes[n].reply.replicas);
    assert WiredNode(n, s.nodes[n]);
    forall i | 0 <= i < |peers| ensures peers[i].node in Nodes(peers) {
    }
    forall m | m in s'.nodes ensures WiredNode(m, s'.nodes[m]) {
      assert WiredNode(m, s.nodes[m]);
    }
  }

  lemma JoinStepWired(s: System, a: Action)
    requires Wired(s) && Joining(s) && Live(s, ORIGIN) && Enabled(s, a) && (a.Join? ==> a.leader == ORIGIN)
    ensures Wired(Apply(s, a))
  {
    forall n | n in s.nodes && n != ORIGIN ensures BackupShape(s.nodes[n]) {
    }
    assert forall x: nat, b: nat :: Link(s, x, b) == [];
    match a
    case Join(n, l) =>
    case Accept(n) => AcceptWired(s, n);
    case ReceiveState(n) => ReceiveWired(s, n);
    case LoseLeader(n) => assert false;
    case Crash(n) =>
    case Deliver(x, b) => assert false;
    case Close(n, p) =>
    case Begin(n) => assert false;
    case Next(n) => assert false;
    case Wake(n) => assert false;
    case Decide(n) => assert false;
    case Reset(n) => assert false;
  }

  lemma DeadStays(s: System, a: Action)
    requires ORIGIN in s.nodes && !s.nodes[ORIGIN].alive && Enabled(s, a)
    ensures ORIGIN in Apply(s, a).nodes && !Apply(s, a).nodes[ORIGIN].alive
  {
    if a.Decide? && !s.nodes[a.n].lostElection {
      CoordinatorNodes(Put(s, a.n, s.nodes[a.n].(leader := true, phase := Resetting)), a.n, s.nodes[a.n].peers);
    }
  }

  /** As long as the original leader lives, nothing has to be assumed but where replicas join. */
  lemma {:induction false} JoiningRun(actions: seq<Action>)
    requires IsRun(actions) && JoinsAtOrigin(actions)
    ensures ORIGIN in After(actions).nodes
    ensures Live(After(actions), ORIGIN) ==> IsOrderly(actions) && Joining(After(actions)) && Wired(After(actions))
  {
    if actions == [] {
      InitialJoinInv();
    } else {
      var front, a := actions[..|actions| - 1], actions[|actions| - 1];
      JoiningRun(front);
      var s := After(front);
      if Live(s, ORIGIN) {
        if a != Crash(ORIGIN) {
          OriginStays(s, a);
          JoinStepKeeps(s, a);
          JoinStepWired(s, a);
        }
      } else {
        DeadStays(s, a);
      }
    }
  }

  // ----- the join invariant, before the leader's crash or right after it -----

  ghost predicate Core(s: System) {
    Joining(s) && Wired(s)
  }

  lemma LeaderAcceptCore(s: System)
    requires Core(s) && Enabled(s, Accept(ORIGIN))
    ensures Core(DoAccept(s, ORIGIN))
  {
    LeaderAcceptShape(s);
    LeaderAcceptRecords(s);
    AcceptWired(s, ORIGIN);
  }

  lemma BackupAcceptCore(s: System, n: nat)
    requires Core(s) && Enabled(s, Accept(n)) && n != ORIGIN
    ensures Core(DoAccept(s, n))
  {
    BackupAcceptShape(s, n);
    BackupAcceptRecords(s, n);
    AcceptWired(s, n);
  }

  lemma ReceiveCore(s: System, n: nat)
    requires Core(s) && Enabled(s, ReceiveState(n))
    ensures Core(DoReceiveState(s, n))
  {
    assert n != ORIGIN && BackupShape(s.nodes[n]);
    ReceiveShape(s, n);
    ReceiveOthers(s, n);
    ReceiveRecords(s, n);
    ReceiveWired(s, n);
  }

  lemma CrashCore(s: System, n: nat)
    requires Core(s) && Live(s, n)
    ensures Core(Put(s, n, s.nodes[n].(alive := false)))
  {
    CrashDeparts(s, n);
    DepartureKeeps(s, n, s.nodes[n].(alive := false));
  }

  // ----- finishing a handshake -----

  /** The replica has read its id. */
  ghost predicate HasId(s: System, n: nat, id: int) {
    n != ORIGIN && Live(s, n) && s.nodes[n].phase.Accepting? && s.nodes[n].id == id
  }

  lemma Finish(s: System, n: nat) returns (t: System)
    requires Core(s) && Backup(s, n) && GivenId(s.nodes[n]) >= 0
    ensures CanReach(s, t) && Core(t) && HasId(t, n, GivenId(s.nodes[n])) && t.nodes[n].closed == s.nodes[n].closed
    ensures forall m :: Knows(t.nodes[n].peers, m) ==> Sees(s.nodes[n], m)
    ensures t.nodes.Keys == s.nodes.Keys
    ensures forall m :: m in s.nodes && m != n ==> t.nodes[m] == s.nodes[m].(backlog := t.nodes[m].backlog)
  {
    assert BackupShape(s.nodes[n]);
    Stay(s);
    if s.nodes[n].phase.AwaitingState? {
      t := DoReceiveState(s, n);
      OneMore(s, s, ReceiveState(n), t);
      ReceiveCore(s, n);
      forall m | Knows(t.nodes[n].peers, m) ensures Sees(s.nodes[n], m) {
        ConnectedWasOffered(s, n, m);
      }
    } else {
      t := s;
    }
  }

  lemma ConnectedWasOffered(s: System, n: nat, m: nat)
    requires Enabled(s, ReceiveState(n)) && s.nodes[n].peers == [] && Knows(DoReceiveState(s, n).nodes[n].peers, m)
    ensures Knows(Offered(s.nodes[n]), m)
  {
    var infos := s.nodes[n].reply.replicas;
    var peers := Reachable(s, infos);
    assert [] + peers == peers;
    var i :| 0 <= i < |peers| && peers[i].node == m;
    ReachableIn(s, infos, peers[i]);
    KnowsIn(infos, peers[i]);
  }

  // ----- leaving only two backups -----

  function Others(s: System, a: nat, b: nat): set<nat> {
    set m | m in s.nodes && s.nodes[m].alive && m != ORIGIN && m != a && m != b
  }

  lemma {:induction false} CrashOthers(s: System, a: nat, b: nat) returns (t: System)
    requires Core(s) && Backup(s, a) && Backup(s, b)
    ensures CanReach(s, t) && Core(t) && Others(t, a, b) == {} && Backup(t, a) && Backup(t, b)
    ensures t.nodes[a] == s.nodes[a] && t.nodes[b] == s.nodes[b] && t.nodes[ORIGIN] == s.nodes[ORIGIN]
    decreases |Others(s, a, b)|
  {
    if Others(s, a, b) == {} {
      Stay(s);
      t := s;
    } else {
      var m :| m in Others(s, a, b);
      var s1 := Put(s, m, s.nodes[m].(alive := false));
      CrashCore(s, m);
      assert Others(s1, a, b) == Others(s, a, b) - {m};
      Stay(s);
      OneMore(s, s, Crash(m), s1);
      t := CrashOthers(s1, a, b);
      Transitive(s, s1, t);
    }
  }

  /** A replica accepts everybody who has connected to it. */
  lemma {:induction false} AcceptAll(s: System, n: nat) returns (t: System)
    requires Core(s) && Backup(s, n) && s.nodes[n].phase.Accepting?
    ensures CanReach(s, t) && Core(t) && HasId(t, n, s.nodes[n].id) && t.nodes[n].backlog == []
    ensures t.nodes.Keys == s.nodes.Keys
    ensures forall m :: m in s.nodes && m != n ==> t.nodes[m] == s.nodes[m]
    decreases |s.nodes[n].backlog|
  {
    Stay(s);
    assert BackupShape(s.nodes[n]);
    if s.nodes[n].backlog == [] {
      t := s;
    } else {
      assert AllGiven(s, n, s.nodes[n].backlog);
      assert GivenOk(s, n, s.nodes[n].backlog[0]);
      var s1 := DoAccept(s, n);
      BackupAcceptCore(s, n);
      OneMore(s, s, Accept(n), s1);
      t := AcceptAll(s1, n);
      Transitive(s, s1, t);
    }
  }

  // ----- orphans in the making -----

  /** A replica that has not noticed the leader's crash, and that no live replica it is connected to is before. */
  ghost predicate OrphanReady(s: System, n: nat) {
    && ORIGIN in s.nodes && !s.nodes[ORIGIN].alive
    && n != ORIGIN && Live(s, n) && !s.nodes[n].lostElection && ORIGIN !in s.nodes[n].closed
    && if s.nodes[n].phase.AwaitingState? then
         s.nodes[n].reply.NoReply? && s.nodes[n].phase.to == ORIGIN && s.nodes[n].peers == []
       else
         && s.nodes[n].phase.Accepting?
         && ORIGIN in s.nodes[n].handlers && ORIGIN in s.nodes[n].toLeader && NothingBefore(s, n)
  }

  /** A live replica that has said hello to the leader, and got no answer. */
  ghost predicate Unanswered(s: System, n: nat) {
    Backup(s, n) && s.nodes[n].phase.AwaitingState? && s.nodes[n].reply.NoReply?
  }

  /** With only `b` left beside it, and not before it as far as it is connected, a replica is ready. */
  lemma ReadyAfter(s: System, a: nat, b: nat)
    requires Core(s) && !s.nodes[ORIGIN].alive && a != b && Others(s, a, b) == {} && Backup(s, a) && Backup(s, b)
    requires s.nodes[a].phase.Accepting? || Unanswered(s, a)
    requires ORIGIN !in s.nodes[a].closed
    requires GivenId(s.nodes[b]) >= GivenId(s.nodes[a]) || !Knows(s.nodes[a].peers, b)
    ensures OrphanReady(s, a)
  {
    var node := s.nodes[a];
    assert BackupShape(node) && WiredNode(a, node);
    assert AllGiven(s, a, node.peers);
    forall i | 0 <= i < |node.peers|
      ensures node.peers[i].node in node.handlers && node.peers[i].node in s.nodes
      ensures s.nodes[node.peers[i].node].alive ==> node.peers[i].id >= node.id
    {
      var info := node.peers[i];
      assert GivenOk(s, a, info);
      assert info.node !in Others(s, a, b);
    }
  }

  /** What another process does leaves a replica ready. */
  lemma ReadyKept(s: System, a: nat, b: nat, node: Node)
    requires a != b && b != ORIGIN && b in s.nodes && node.alive == s.nodes[b].alive && OrphanReady(s, a)
    ensures OrphanReady(Put(s, b, node), a)
  {
  }

  /** A newcomer that loses the leader keeps the id -1, and knows nobody. */
  function Lost(node: Node): Node {
    if node.phase.AwaitingState? then
      node.(phase := Accepting, handlers := node.handlers + {node.phase.to}, toLeader := node.toLeader + {node.phase.to})
    else node
  }

  lemma LosesLeader(s: System, n: nat)
    requires OrphanReady(s, n)
    ensures CanReach(s, Put(s, n, Lost(s.nodes[n]))) && OrphanReady(Put(s, n, Lost(s.nodes[n])), n)
    ensures Orphan(Put(s, n, Lost(s.nodes[n])), n) && NothingBefore(Put(s, n, Lost(s.nodes[n])), n)
  {
    Stay(s);
    if s.nodes[n].phase.AwaitingState? {
      OneMore(s, s, LoseLeader(n), Put(s, n, Lost(s.nodes[n])));
    } else {
      PutSame(s, n);
    }
  }

  lemma TwoReady(s: System, a: nat, b: nat)
    requires a != b && OrphanReady(s, a) && OrphanReady(s, b) && NothingSent(s)
    ensures exists u :: CanReach(s, u) && TwoLead(u, a, b)
  {
    LosesLeader(s, a);
    var s1 := Put(s, a, Lost(s.nodes[a]));
    ReadyKept(s, b, a, s1.nodes[a]);
    LosesLeader(s1, b);
    var s2 := Put(s1, b, Lost(s1.nodes[b]));
    ReadyKept(s1, a, b, s2.nodes[b]);
    Transitive(s, s1, s2);
    forall x: nat, y: nat ensures Link(s2, x, y) == [] {
      assert Link(s, x, y) == [];
    }
    BothElected(s2, a, b);
    var u :| CanReach(s2, u) && TwoLead(u, a, b);
    Transitive(s, s2, u);
  }

  lemma NothingSentBefore(s: System)
    requires NoElection(s)
    ensures NothingSent(s)
  {
    forall x: nat, y: nat ensures Link(s, x, y) == [] {
      assert forall a, b :: Link(s, a, b) == [];
    }
  }

  /** Everybody but two replicas and the leader crashes, and these two end their handshakes. */
  lemma LeaveTwo(s: System, a: nat, b: nat, id: int) returns (t: System)
    requires Core(s) && a != b && HasId(s, a, id) && HasId(s, b, id)
    ensures CanReach(s, t) && Core(t) && Others(t, a, b) == {} && HasId(t, a, id) && HasId(t, b, id)
    ensures t.nodes[a].backlog == [] && t.nodes[b].backlog == [] && t.nodes[ORIGIN] == s.nodes[ORIGIN]
  {
    var s1 := CrashOthers(s, a, b);
    var s2 := AcceptAll(s1, a);
    t := AcceptAll(s2, b);
    Transitive(s, s1, s2);
    Transitive(s, s2, t);
    assert forall m :: m in Others(t, a, b) ==> m in Others(s1, a, b);
  }

  lemma TwoLeftAreQuiet(s: System, a: nat, b: nat, id: int)
    requires Core(s) && Others(s, a, b) == {} && HasId(s, a, id) && HasId(s, b, id)
    requires s.nodes[a].backlog == [] && s.nodes[b].backlog == []
    ensures Quiet(s)
  {
    assert BackupShape(s.nodes[a]) && BackupShape(s.nodes[b]);
    forall n | n in s.nodes && n != ORIGIN && s.nodes[n].alive ensures Joined(s.nodes[n]) {
      assert n !in Others(s, a, b);
    }
  }

  lemma NothingSentWithout(s: System)
    requires NoElection(s) && ORIGIN in s.nodes
    ensures NothingSent(WithoutOrigin(s))
  {
    NothingSentBefore(s);
    forall x: nat, y: nat ensures Link(WithoutOrigin(s), x, y) == [] {
      assert Link(s, x, y) == [];
    }
  }

  lemma OriginNotClosed(s: System)
    requires ClosedAreDead(s) && Live(s, ORIGIN)
    ensures forall n :: n in s.nodes ==> ORIGIN !in s.nodes[n].closed
  {
  }

  /** Two replicas that hold the same id: everybody else crashes, the leader last, and both are elected. */
  lemma SameIdBothLead(s: System, a: nat, b: nat, id: int)
    requires Core(s) && Live(s, ORIGIN) && a != b && HasId(s, a, id) && HasId(s, b, id)
    ensures exists u :: CanReach(s, u) && TwoLead(u, a, b)
  {
    var s1 := LeaveTwo(s, a, b, id);
    assert BackupShape(s1.nodes[a]) && BackupShape(s1.nodes[b]);
    var s2 := WithoutOrigin(s1);
    CrashCore(s1, ORIGIN);
    OriginNotClosed(s1);
    assert Others(s2, a, b) == Others(s1, a, b) && Others(s2, b, a) == Others(s1, a, b);
    ReadyAfter(s2, a, b);
    ReadyAfter(s2, b, a);
    TwoLeftAreQuiet(s1, a, b, id);
    OneMore(s, s1, Crash(ORIGIN), s2);
    NothingSentWithout(s1);
    TwoReady(s2, a, b);
    var u :| CanReach(s2, u) && TwoLead(u, a, b);
    Transitive(s, s2, u);
  }

  // ----- the condition on ids, exactly -----

  ghost predicate OneLeaderIn(s: System) {
    forall n, m :: Live(s, n) && Live(s, m) && s.nodes[n].leader && s.nodes[m].leader ==> n == m
  }

  /** The environment never leads to two live leaders from here. */
  ghost predicate Safe(s: System) {
    forall u :: CanReach(s, u) ==> OneLeaderIn(u)
  }

  lemma StageIsSafe(s: System)
    requires Stage(s, Calm) || Stage(s, Any)
    ensures OneLeaderIn(s)
  {
    if Inv(s, Calm) {
      ModeIsInv(s, Calm);
    }
    forall n, m | Live(s, n) && Live(s, m) && s.nodes[n].leader && s.nodes[m].leader ensures n == m {
      StageOneLeader(s, n, m);
    }
  }

  lemma {:induction false} LeadsToStage(r: Trace, s: System, u: System, k: nat)
    requires (Stage(s, Calm) || Inv(s, Any)) && Leads(r, s, u) && k <= |r.actions|
    ensures Stage(r.states[k], Calm) || Inv(r.states[k], Any)
  {
    if k > 0 {
      LeadsToStage(r, s, u, k - 1);
      var t, a := r.states[k - 1], r.actions[k - 1];
      assert Goes(t, a, r.states[k]);
      if Stage(t, Calm) {
        DisciplinedIsOrderly(t, a);
        StageStep(t, Calm, a);
      } else {
        StepKeeps(t, Any, a);
      }
    }
  }

  lemma StaysSafe(s: System)
    requires Stage(s, Calm) || Inv(s, Any)
    ensures Safe(s)
  {
    forall u | CanReach(s, u) ensures OneLeaderIn(u) {
      var r :| Leads(r, s, u);
      LeadsToStage(r, s, u, |r.actions|);
      StageIsSafe(u);
    }
  }

  /** Both finish their handshakes, and then have the same id. */
  lemma SameGivenId(s: System, a: nat, b: nat, id: int)
    requires Core(s) && Live(s, ORIGIN) && a != b && Backup(s, a) && Backup(s, b) && id >= 0
    requires GivenId(s.nodes[a]) == id && GivenId(s.nodes[b]) == id
    ensures exists u :: CanReach(s, u) && TwoLead(u, a, b)
  {
    var s1 := Finish(s, a);
    var s2 := Finish(s1, b);
    Transitive(s, s1, s2);
    SameIdBothLead(s2, a, b, id);
    var u :| CanReach(s2, u) && TwoLead(u, a, b);
    Transitive(s, s2, u);
  }

  lemma StaleIdSplits(s: System)
    requires JoinInv(s) && Wired(s) && Enabled(s, Accept(ORIGIN)) && Live(s, s.nodes[ORIGIN].backlog[0].node)
    requires !FreshId(s, ORIGIN)
    ensures exists u, n, m :: CanReach(DoAccept(s, ORIGIN), u) && TwoLead(u, n, m)
  {
    var h := s.nodes[ORIGIN].backlog[0].node;
    var id := |Open(s.nodes[ORIGIN].peers, s.nodes[ORIGIN].closed)|;
    assert Newcomer(s, h) && BackupShape(s.nodes[h]);
    var m :| m in s.nodes && m != ORIGIN && s.nodes[m].alive && GivenId(s.nodes[m]) == id;
    LeaderAcceptCore(s);
    SameGivenId(DoAccept(s, ORIGIN), m, h, id);
  }

  lemma {:induction false} DisciplinedAtOrigin(actions: seq<Action>)
    requires IsRun(actions) && IsDisciplined(actions)
    ensures JoinsAtOrigin(actions)
  {
    if actions != [] {
      DisciplinedAtOrigin(actions[..|actions| - 1]);
    }
  }

  /**
   * Accepting a live newcomer leaves the system safe, whatever the environment does from there, exactly
   * when no live replica holds the id that is handed out.
   */
  lemma FreshIdExactly(actions: seq<Action>)
    requires IsRun(actions) && IsDisciplined(actions) && Live(After(actions), ORIGIN)
    requires Enabled(After(actions), Accept(ORIGIN))
    requires Live(After(actions), After(actions).nodes[ORIGIN].backlog[0].node)
    ensures FreshId(After(actions), ORIGIN) <==> Safe(Apply(After(actions), Accept(ORIGIN)))
  {
    var s := After(actions);
    CalmRunInv(actions);
    DisciplinedAtOrigin(actions);
    JoiningRun(actions);
    if FreshId(s, ORIGIN) {
      MeetingStepKeeps(s, Accept(ORIGIN));
      StaysSafe(DoAccept(s, ORIGIN));
    } else {
      StaleIdSplits(s);
      var u, n, m :| CanReach(DoAccept(s, ORIGIN), u) && TwoLead(u, n, m);
      assert !OneLeaderIn(u);
    }
  }

  // ----- the leader's crash, exactly -----

  lemma FinishIfAnswered(s: System, n: nat) returns (t: System)
    requires Core(s) && Backup(s, n)
    ensures CanReach(s, t) && Core(t) && Finished(s, t, n)
    ensures t.nodes.Keys == s.nodes.Keys
    ensures forall m :: m in s.nodes && m != n ==> t.nodes[m] == s.nodes[m].(backlog := t.nodes[m].backlog)
  {
    assert BackupShape(s.nodes[n]);
    if GivenId(s.nodes[n]) >= 0 {
      t := Finish(s, n);
      assert BackupShape(t.nodes[n]);
    } else {
      Stay(s);
      t := s;
    }
  }

  /** The replica has ended its handshake as far as it could. */
  ghost predicate Finished(s: System, t: System, n: nat)
    requires n in s.nodes
  {
    && Backup(t, n) && (t.nodes[n].phase.Accepting? || Unanswered(t, n))
    && GivenId(t.nodes[n]) == GivenId(s.nodes[n]) && t.nodes[n].closed == s.nodes[n].closed
    && forall m :: Knows(t.nodes[n].peers, m) ==> Sees(s.nodes[n], m)
  }

  /** Everybody else crashes, and the two end their handshakes as far as they can. */
  lemma OnlyTwo(s: System, n: nat, m: nat) returns (t: System)
    requires Core(s) && Backup(s, n) && Backup(s, m) && n != m
    ensures CanReach(s, t) && Core(t) && t.nodes[ORIGIN].alive == s.nodes[ORIGIN].alive && Others(t, n, m) == {}
    ensures Finished(s, t, n) && Finished(s, t, m)
  {
    var s1 := CrashOthers(s, n, m);
    var s2 := FinishIfAnswered(s1, n);
    StillOnlyTwo(s1, s2, n, m);
    t := FinishIfAnswered(s2, m);
    StillOnlyTwo(s2, t, n, m);
    Transitive(s, s1, s2);
    Transitive(s, s2, t);
    assert Finished(s, s2, n);
  }

  /** Two backups that are not in order, the second not with a higher id: both become leader. */
  lemma UnorderedSplits(s: System, n: nat, m: nat)
    requires Core(s) && Live(s, ORIGIN) && Backup(s, n) && Backup(s, m) && n != m
    requires GivenId(s.nodes[m]) <= GivenId(s.nodes[n]) && !Before(s, m, n)
    ensures exists u :: CanReach(WithoutOrigin(s), u) && TwoLead(u, n, m)
  {
    CrashCore(s, ORIGIN);
    OriginNotClosed(s);
    var t := OnlyTwo(WithoutOrigin(s), n, m);
    assert Others(t, m, n) == Others(t, n, m);
    ReadyAfter(t, n, m);
    ReadyAfter(t, m, n);
    NothingSentBefore(t);
    TwoReady(t, n, m);
    var u :| CanReach(t, u) && TwoLead(u, n, m);
    Transitive(WithoutOrigin(s), t, u);
  }

  lemma StillOnlyTwo(s: System, t: System, n: nat, m: nat)
    requires Others(s, n, m) == {} && t.nodes.Keys == s.nodes.Keys && Backup(s, n) && Backup(s, m)
    requires forall k :: k in s.nodes && k != n && k != m ==> t.nodes[k].alive == s.nodes[k].alive
    ensures Others(t, n, m) == {}
  {
    forall k: nat ensures k !in Others(t, n, m) {
      assert k !in Others(s, n, m);
    }
  }

  /**
   * The original leader's crash is safe, whatever the environment does from there, exactly when of any two
   * live backups one was given a lower id and the other one sees it.
   */
  lemma CrashExactly(actions: seq<Action>)
    requires IsRun(actions) && JoinsAtOrigin(actions) && Live(After(actions), ORIGIN)
    ensures Ordered(After(actions)) <==> Safe(Apply(After(actions), Crash(ORIGIN)))
  {
    var s := After(actions);
    JoiningRun(actions);
    assert Apply(s, Crash(ORIGIN)) == WithoutOrigin(s);
    if Ordered(s) {
      OriginCrash(s, Any);
      StaysSafe(WithoutOrigin(s));
    } else {
      var n, m :| Backup(s, n) && Backup(s, m) && n != m && !Before(s, m, n) && !Before(s, n, m);
      var u := SplitOf(s, n, m);
      assert !OneLeaderIn(u);
    }
  }

  lemma SplitOf(s: System, n: nat, m: nat) returns (u: System)
    requires Core(s) && Live(s, ORIGIN) && Backup(s, n) && Backup(s, m) && n != m
    requires !Before(s, m, n) && !Before(s, n, m)
    ensures CanReach(WithoutOrigin(s), u) && TwoLead(u, n, m)
  {
    if GivenId(s.nodes[m]) <= GivenId(s.nodes[n]) {
      UnorderedSplits(s, n, m);
      u :| CanReach(WithoutOrigin(s), u) && TwoLead(u, n, m);
    } else {
      UnorderedSplits(s, m, n);
      u :| CanReach(WithoutOrigin(s), u) && TwoLead(u, m, n);
    }
  }

  /**
   * Whenever a live newcomer waits for the leader's answer and another replica is alive, the leader's crash
   * can leave two live leaders: the newcomer wins an election that it holds on its own.
   */
  lemma CrashBeforeAnswerSplits(actions: seq<Action>, n: nat, m: nat)
    requires IsRun(actions) && JoinsAtOrigin(actions) && Live(After(actions), ORIGIN)
    requires Unanswered(After(actions), n) && Backup(After(actions), m) && n != m
    ensures exists u :: CanReach(Apply(After(actions), Crash(ORIGIN)), u) && TwoLead(u, n, m)
  {
    var s := After(actions);
    JoiningRun(actions);
    UnansweredIsUnseen(s, n, m);
    var u := SplitOf(s, n, m);
    assert Apply(s, Crash(ORIGIN)) == WithoutOrigin(s);
  }

  lemma UnansweredIsUnseen(s: System, n: nat, m: nat)
    requires Joining(s) && Unanswered(s, n) && Backup(s, m) && n != m
    ensures !Before(s, m, n) && !Before(s, n, m)
  {
    assert BackupShape(s.nodes[n]) && BackupShape(s.nodes[m]);
    NotGivenNotKnown(s, m, s.nodes[m].peers, n);
    NotGivenNotKnown(s, m, Offered(s.nodes[m]), n);
  }

  lemma NotGivenNotKnown(s: System, m: nat, infos: seq<Info>, n: nat)
    requires AllGiven(s, m, infos) && n in s.nodes && GivenId(s.nodes[n]) < 0
    ensures !Knows(infos, n)
  {
    forall i | 0 <= i < |infos| ensures infos[i].node != n {
      assert GivenOk(s, m, infos[i]);
    }
  }

}
