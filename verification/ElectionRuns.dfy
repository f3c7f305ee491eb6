/** What holds in every reachable state of the join, crash and election system. */
module ElectionRuns {
  import opened Election
  import opened ElectionSafety
  import opened ElectionJoin

  /** Before the original leader's crash and after it. */
  ghost predicate Stage(s: System, mode: Mode) {
    (Live(s, ORIGIN) && Joining(s) && (mode.Calm? ==> Meeting(s))) || Inv(s, mode)
  }

  lemma OriginStays(s: System, a: Action)
    requires Live(s, ORIGIN) && Enabled(s, a) && a != Crash(ORIGIN)
    ensures Live(Apply(s, a), ORIGIN)
  {
    if a.Decide? && !s.nodes[a.n].lostElection {
      CoordinatorNodes(Put(s, a.n, s.nodes[a.n].(leader := true, phase := Resetting)), a.n, s.nodes[a.n].peers);
    }
  }

  lemma StageStep(s: System, mode: Mode, a: Action)
    requires Stage(s, mode) && Enabled(s, a) && Orderly(s, a)
    requires mode.Calm? ==> Disciplined(s, a)
    requires mode.Right? ==> RecordsTaken(s, a)
    ensures Stage(Apply(s, a), mode)
  {
    if Inv(s, mode) {
      StepKeeps(s, mode, a);
    } else if a == Crash(ORIGIN) {
      if mode.Calm? {
        CalmCrash(s);
      } else {
        OriginCrash(s, mode);
      }
    } else {
      OriginStays(s, a);
      JoinStepKeeps(s, a);
      if mode.Calm? {
        MeetingStepKeeps(s, a);
      }
    }
  }

  /** Fresh ids, and a crash between handshakes, are enough for the backups to be in order. */
  lemma DisciplinedIsOrderly(s: System, a: Action)
    requires Stage(s, Calm) && Enabled(s, a) && Disciplined(s, a)
    ensures Orderly(s, a)
  {
    if a == Crash(ORIGIN) {
      QuietIsOrdered(s);
    }
  }

  lemma {:induction false} RunInv(actions: seq<Action>)
    requires IsRun(actions) && IsOrderly(actions)
    ensures Stage(After(actions), Any)
  {
    if actions == [] {
      InitialJoinInv();
    } else {
      RunInv(actions[..|actions| - 1]);
      StageStep(After(actions[..|actions| - 1]), Any, actions[|actions| - 1]);
    }
  }

  /** The same with fresh ids, and the leader's crash between handshakes. */
  lemma {:induction false} CalmRunInv(actions: seq<Action>)
    requires IsRun(actions) && IsDisciplined(actions)
    ensures IsOrderly(actions) && Stage(After(actions), Calm)
  {
    if actions == [] {
      InitialJoinInv();
    } else {
      CalmRunInv(actions[..|actions| - 1]);
      DisciplinedIsOrderly(After(actions[..|actions| - 1]), actions[|actions| - 1]);
      StageStep(After(actions[..|actions| - 1]), Calm, actions[|actions| - 1]);
    }
  }

  /** Then no later leader accepts anybody. */
  lemma CalmRecordsTaken(s: System, a: Action)
    requires Stage(s, Calm) && Enabled(s, a)
    ensures RecordsTaken(s, a)
  {
    if Inv(s, Calm) {
      assert forall n :: Backup(s, n) ==> Joined(s.nodes[n]);
    } else {
      assert forall n :: n in s.nodes && n != ORIGIN ==> BackupShape(s.nodes[n]);
    }
  }

  /** Whenever a later leader accepts a replica, it records the id that the replica has. */
  predicate AlwaysTaken(actions: seq<Action>)
    requires IsRun(actions)
  {
    actions == [] ||
      (AlwaysTaken(actions[..|actions| - 1])
       && RecordsTaken(After(actions[..|actions| - 1]), actions[|actions| - 1]))
  }

  lemma {:induction false} RightRunInv(actions: seq<Action>)
    requires IsRun(actions) && IsOrderly(actions) && AlwaysTaken(actions)
    ensures Stage(After(actions), Right)
  {
    if actions == [] {
      InitialJoinInv();
    } else {
      RightRunInv(actions[..|actions| - 1]);
      StageStep(After(actions[..|actions| - 1]), Right, actions[|actions| - 1]);
    }
  }

  /** It does so when ids are fresh and the leader's crash comes between handshakes. */
  lemma {:induction false} DisciplinedIsTaken(actions: seq<Action>)
    requires IsRun(actions) && IsDisciplined(actions)
    ensures AlwaysTaken(actions)
  {
    if actions != [] {
      DisciplinedIsTaken(actions[..|actions| - 1]);
      CalmRunInv(actions[..|actions| - 1]);
      CalmRecordsTaken(After(actions[..|actions| - 1]), actions[|actions| - 1]);
    }
  }

  lemma StageOneLeader(s: System, n: nat, m: nat)
    requires Stage(s, Any)
    requires Live(s, n) && s.nodes[n].leader && Live(s, m) && s.nodes[m].leader
    ensures n == m
  {
    if Inv(s, Any) {
      OneLeader(s, Any, n, m);
    } else {
      assert n != ORIGIN ==> BackupShape(s.nodes[n]);
      assert m != ORIGIN ==> BackupShape(s.nodes[m]);
    }
  }

  /** There is never more than one live leader. */
  lemma AtMostOneLeader(actions: seq<Action>, n: nat, m: nat)
    requires IsRun(actions) && IsOrderly(actions)
    requires Live(After(actions), n) && After(actions).nodes[n].leader
    requires Live(After(actions), m) && After(actions).nodes[m].leader
    ensures n == m
  {
    RunInv(actions);
    StageOneLeader(After(actions), n, m);
  }

  /** No election runs, and no election message was ever sent, while the original leader lives. */
  lemma NoElectionBefore(actions: seq<Action>, n: nat, a: nat, b: nat)
    requires IsRun(actions) && IsOrderly(actions)
    requires Live(After(actions), ORIGIN) && n in After(actions).nodes
    ensures
      var s := After(actions);
      && !s.nodes[n].startElection
      && (s.nodes[n].phase.Accepting? || s.nodes[n].phase.AwaitingState?)
      && (s.nodes[n].leader <==> n == ORIGIN)
      && Link(s, a, b) == []
  {
    RunInv(actions);
    assert n != ORIGIN ==> BackupShape(After(actions).nodes[n]);
  }

  /** Every id that is recorded for a peer is the one that peer has, or was sent and has not read yet. */
  ghost predicate RightRecords(s: System) {
    forall n :: n in s.nodes ==> RecordsOf(s, n, s.nodes[n].peers)
  }

  ghost predicate RightAfter(actions: seq<Action>) {
    RightRecords(After(actions))
  }

  ghost predicate AllAlong(good: seq<Action> -> bool, actions: seq<Action>) {
    forall k :: 0 <= k <= |actions| ==> good(actions[..k])
  }

  lemma AllAlongStep(good: seq<Action> -> bool, actions: seq<Action>)
    requires actions != []
    ensures AllAlong(good, actions) <==> AllAlong(good, actions[..|actions| - 1]) && good(actions)
  {
    var front := actions[..|actions| - 1];
    assert actions[..|actions|] == actions;
    forall k | 0 <= k <= |front| ensures good(front[..k]) == good(actions[..k]) {
      assert front[..k] == actions[..k];
    }
  }

  lemma StageRecords(s: System)
    requires Stage(s, Right)
    ensures RightRecords(s)
  {
    forall n | n in s.nodes ensures RecordsOf(s, n, s.nodes[n].peers) {
      if Inv(s, Right) {
        assert NodeRecords(s, n, s.nodes[n], Right);
      } else {
        forall i | 0 <= i < |s.nodes[n].peers| ensures RecordOk(s, n, s.nodes[n].peers[i]) {
          assert AllGiven(s, n, s.nodes[n].peers);
          assert GivenOk(s, n, s.nodes[n].peers[i]);
        }
      }
    }
  }

  lemma WrongRecord(s: System, a: Action)
    requires Stage(s, Any) && RightRecords(s) && Enabled(s, a) && !RecordsTaken(s, a)
    ensures !RightRecords(Apply(s, a))
  {
    if Inv(s, Any) {
      AcceptRecordsExactly(s, a.n);
    } else {
      OnlyOriginLeads(s);
    }
  }

  /** All recorded ids are right all along exactly when every later leader hands out ids that are taken. */
  lemma {:induction false} RecordedIdsExactly(actions: seq<Action>)
    requires IsRun(actions) && IsOrderly(actions)
    ensures AlwaysTaken(actions) <==> AllAlong(RightAfter, actions)
  {
    if actions == [] {
      RightRunInv([]);
      StageRecords(After([]));
      assert RightAfter([]);
    } else {
      var front, a := actions[..|actions| - 1], actions[|actions| - 1];
      RecordedIdsExactly(front);
      AllAlongStep(RightAfter, actions);
      if AlwaysTaken(actions) {
        RightRunInv(actions);
        StageRecords(After(actions));
      } else if AlwaysTaken(front) {
        RightRunInv(front);
        StageRecords(After(front));
        RunInv(front);
        WrongRecord(After(front), a);
      }
    }
  }

  /** A process that is no later leader has right records in any case. */
  lemma RecordedIds(actions: seq<Action>, n: nat)
    requires IsRun(actions) && IsOrderly(actions) && n in After(actions).nodes
    requires After(actions).nodes[n].leader ==> n == ORIGIN
    ensures RecordsOf(After(actions), n, After(actions).nodes[n].peers)
  {
    var s := After(actions);
    RunInv(actions);
    if Inv(s, Any) {
      assert NodeRecords(s, n, s.nodes[n], Any);
    } else {
      forall i | 0 <= i < |s.nodes[n].peers| ensures RecordOk(s, n, s.nodes[n].peers[i]) {
        assert AllGiven(s, n, s.nodes[n].peers);
        assert GivenOk(s, n, s.nodes[n].peers[i]);
      }
    }
  }

  /**
   * ELECTION goes to a process with a lower id only, and the only answer is "Lost", as long as every later
   * leader hands out ids that are taken; what others send and are answered is like that in any case.
   */
  lemma ElectionAnswers(actions: seq<Action>, a: nat, b: nat, i: nat)
    requires IsRun(actions) && IsOrderly(actions)
    requires i < |Link(After(actions), a, b)|
    ensures
      var s, m := After(actions), Link(After(actions), a, b)[i];
      && (m.ElectionMsg? ==>
            && a in s.nodes && b in s.nodes && m.id == GivenId(s.nodes[a])
            && (AlwaysTaken(actions) || !s.nodes[a].leader ==> GivenId(s.nodes[b]) < m.id))
      && (m.AnswerMsg? ==> b in s.nodes && (AlwaysTaken(actions) || !s.nodes[b].leader ==> m.lost))
  {
    var s := After(actions);
    var mode := if AlwaysTaken(actions) then Right else Any;
    if AlwaysTaken(actions) {
      RightRunInv(actions);
    } else {
      RunInv(actions);
    }
    if Inv(s, mode) {
      assert MessageOk(s, mode, a, b, Link(s, a, b)[i]);
    }
  }

  /** A replica that leads has seen the original leader and every lower id crash. */
  lemma LeaderIsLeast(actions: seq<Action>, n: nat, m: nat)
    requires IsRun(actions) && IsOrderly(actions)
    requires n != ORIGIN && n in After(actions).nodes && After(actions).nodes[n].leader
    requires m in After(actions).nodes && m != n
    requires m == ORIGIN || GivenId(After(actions).nodes[m]) <= GivenId(After(actions).nodes[n])
    ensures !After(actions).nodes[m].alive
  {
    RunInv(actions);
    var s := After(actions);
    if Inv(s, Any) {
      var k :| 0 <= k < |s.elected| && s.elected[k] == Info(n, GivenId(s.nodes[n]));
      assert Least(s, s.elected[k]);
    } else {
      OnlyOriginLeads(s);
    }
  }

  lemma OnlyOriginLeads(s: System)
    requires Joining(s)
    ensures forall k :: k in s.nodes && k != ORIGIN ==> !s.nodes[k].leader
  {
    forall k | k in s.nodes && k != ORIGIN ensures !s.nodes[k].leader {
      assert BackupShape(s.nodes[k]);
    }
  }

  /** Successive leaders have strictly increasing ids. */
  lemma LeadersIncrease(actions: seq<Action>, j: nat, k: nat)
    requires IsRun(actions) && IsOrderly(actions)
    requires j < k < |After(actions).elected|
    requires After(actions).elected[j].node != After(actions).elected[k].node
    ensures After(actions).elected[j].id < After(actions).elected[k].id
  {
    RunInv(actions);
  }

  // ----- the join phase -----

  /** No replica has left yet, and the leader's vector entry i has id i. */
  ghost predicate JoinPhase(s: System) {
    && JoinInv(s)
    && AllAlive(s)
    && Numbered(s.nodes[ORIGIN].peers)
    && EarlierKnown(s)
    && NewcomersWait(s)
  }

  /** Whoever has no answer from the leader is in its backlog. */
  ghost predicate NewcomersWait(s: System)
    requires ORIGIN in s.nodes
  {
    forall n :: Newcomer(s, n) ==> Knows(s.nodes[ORIGIN].backlog, n)
  }

  /** The list holds every member with a lower id. */
  ghost predicate KnowsBelow(s: System, infos: seq<Info>, id: int) {
    forall m :: Member(s, m) && GivenId(s.nodes[m]) < id ==> Knows(infos, m)
  }

  /** Every backup knows all the earlier ones, and so does the list that is offered to a newcomer. */
  ghost predicate EarlierKnown(s: System) {
    forall n :: Backup(s, n) ==>
      && KnowsBelow(s, s.nodes[n].peers, s.nodes[n].id)
      && (s.nodes[n].reply.Replicas? ==> KnowsBelow(s, s.nodes[n].reply.replicas, s.nodes[n].reply.id))
  }

  lemma {:induction false} NothingClosed(peers: seq<Info>)
    ensures Open(peers, {}) == peers
  {
    if peers != [] {
      NothingClosed(peers[..|peers| - 1]);
    }
  }

  predicate Left(s: System, p: nat) {
    p in s.nodes && !s.nodes[p].alive
  }

  lemma NobodyClosed(s: System, n: nat)
    requires ClosedAreDead(s) && AllAlive(s) && n in s.nodes
    ensures s.nodes[n].closed == {}
  {
    forall p: nat ensures p !in s.nodes[n].closed {
      assert p in s.nodes[n].closed ==> Left(s, p);
      assert !Left(s, p);
    }
  }

  /** While nobody has left, the next id is fresh. */
  lemma JoinPhaseFresh(s: System)
    requires JoinPhase(s)
    ensures Open(s.nodes[ORIGIN].peers, s.nodes[ORIGIN].closed) == s.nodes[ORIGIN].peers
    ensures FreshId(s, ORIGIN)
  {
    var peers := s.nodes[ORIGIN].peers;
    NobodyClosed(s, ORIGIN);
    NothingClosed(peers);
    forall m | m in s.nodes && m != ORIGIN && s.nodes[m].alive ensures GivenId(s.nodes[m]) != |peers| {
      if Member(s, m) {
        var i :| 0 <= i < |peers| && peers[i].node == m;
        assert AllGiven(s, ORIGIN, peers);
        assert GivenOk(s, ORIGIN, peers[i]);
      }
    }
  }

  predicate NoCrash(actions: seq<Action>) {
    forall i :: 0 <= i < |actions| ==> !actions[i].Crash?
  }

  predicate JoinsAtOrigin(actions: seq<Action>) {
    forall i :: 0 <= i < |actions| && actions[i].Join? ==> actions[i].leader == ORIGIN
  }

  lemma {:induction false} JoinPhaseRun(actions: seq<Action>)
    requires IsRun(actions) && NoCrash(actions) && JoinsAtOrigin(actions)
    ensures JoinPhase(After(actions)) && IsDisciplined(actions)
  {
    if actions == [] {
      InitialJoinInv();
    } else {
      var front, a := actions[..|actions| - 1], actions[|actions| - 1];
      JoinPhaseRun(front);
      var s := After(front);
      JoinPhaseFresh(s);
      forall n | n in s.nodes && n != ORIGIN ensures BackupShape(s.nodes[n]) {
      }
      assert a == actions[|actions| - 1] && !a.Crash?;
      assert Disciplined(s, a);
      MeetingStepKeeps(s, a);
      JoinPhaseStep(s, a);
    }
  }

  /** Entry i of the vector has id i. */
  predicate Numbered(infos: seq<Info>) {
    forall i :: 0 <= i < |infos| ==> infos[i].id == i
  }

  predicate AllAlive(s: System) {
    forall n :: n in s.nodes ==> s.nodes[n].alive
  }

  lemma AcceptAlive(s: System, n: nat)
    requires AllAlive(s) && ORIGIN in s.nodes && Enabled(s, Accept(n))
    ensures AllAlive(DoAccept(s, n)) && ORIGIN in DoAccept(s, n).nodes
  {
  }

  lemma LeaderAcceptPeers(s: System)
    requires ORIGIN in s.nodes && Enabled(s, Accept(ORIGIN)) && s.nodes[ORIGIN].leader
    requires s.nodes[ORIGIN].backlog[0].node != ORIGIN
    ensures
      var open := Open(s.nodes[ORIGIN].peers, s.nodes[ORIGIN].closed);
      && ORIGIN in DoAccept(s, ORIGIN).nodes
      && DoAccept(s, ORIGIN).nodes[ORIGIN].peers == open + [Info(s.nodes[ORIGIN].backlog[0].node, |open|)]
  {
  }

  lemma NumberedSnoc(infos: seq<Info>, node: nat)
    requires Numbered(infos)
    ensures Numbered(infos + [Info(node, |infos|)])
  {
  }

  lemma AcceptNumbered(s: System, n: nat)
    requires JoinPhase(s) && Enabled(s, Accept(n))
    ensures AllAlive(DoAccept(s, n)) && ORIGIN in DoAccept(s, n).nodes && Numbered(DoAccept(s, n).nodes[ORIGIN].peers)
  {
    AcceptAlive(s, n);
    if n == ORIGIN {
      JoinPhaseFresh(s);
      assert Newcomer(s, s.nodes[ORIGIN].backlog[0].node);
      LeaderAcceptPeers(s);
      NumberedSnoc(s.nodes[ORIGIN].peers, s.nodes[ORIGIN].backlog[0].node);
    } else {
      assert BackupShape(s.nodes[n]);
    }
  }

  lemma ReceiveNumbered(s: System, n: nat)
    requires Shape(s) && GivenRecords(s) && AllAlive(s) && Numbered(s.nodes[ORIGIN].peers) && Enabled(s, ReceiveState(n))
    ensures AllAlive(DoReceiveState(s, n)) && ORIGIN in DoReceiveState(s, n).nodes
    ensures Numbered(DoReceiveState(s, n).nodes[ORIGIN].peers)
  {
    OriginNotOffered(s, n);
    assert n != ORIGIN;
    assert DoReceiveState(s, n).nodes[ORIGIN] == s.nodes[ORIGIN];
    forall m | m in DoReceiveState(s, n).nodes ensures DoReceiveState(s, n).nodes[m].alive {
      assert s.nodes[m].alive;
    }
  }

  /** Members only have ids below the size of the leader's vector. */
  lemma IdsBelow(s: System, m: nat)
    requires JoinInv(s) && Numbered(s.nodes[ORIGIN].peers) && Member(s, m)
    ensures GivenId(s.nodes[m]) < |s.nodes[ORIGIN].peers|
  {
    var peers := s.nodes[ORIGIN].peers;
    var i :| 0 <= i < |peers| && peers[i].node == m;
    assert AllGiven(s, ORIGIN, peers);
    assert GivenOk(s, ORIGIN, peers[i]);
  }

  /** Nobody new has an id. */
  ghost predicate NoNewMember(s: System, s': System) {
    forall m :: Member(s', m) ==> Member(s, m) && GivenId(s'.nodes[m]) == GivenId(s.nodes[m])
  }

  lemma StillKnown(s: System, s': System)
    requires NoNewMember(s, s')
    requires forall n :: Backup(s', n) ==>
      && KnowsBelow(s, s'.nodes[n].peers, s'.nodes[n].id)
      && (s'.nodes[n].reply.Replicas? ==> KnowsBelow(s, s'.nodes[n].reply.replicas, s'.nodes[n].reply.id))
    ensures EarlierKnown(s')
  {
  }

  lemma MoreKnown(s: System, infos: seq<Info>, more: seq<Info>, id: int)
    requires KnowsBelow(s, infos, id)
    ensures KnowsBelow(s, infos + more, id)
  {
    forall m | Knows(infos, m) ensures Knows(infos + more, m) {
      KnowsAppend(infos, more, m);
    }
  }

  lemma JoinKnown(s: System, n: nat)
    requires JoinPhase(s) && Enabled(s, Join(n, ORIGIN))
    ensures EarlierKnown(DoJoin(s, n, ORIGIN))
  {
    var s' := DoJoin(s, n, ORIGIN);
    forall m | Member(s', m) ensures Member(s, m) && GivenId(s'.nodes[m]) == GivenId(s.nodes[m]) {
    }
    StillKnown(s, s');
  }

  lemma AllIdsBelow(s: System)
    requires JoinPhase(s)
    ensures forall m :: Member(s, m) ==> GivenId(s.nodes[m]) < |s.nodes[ORIGIN].peers|
    ensures forall n :: Backup(s, n) ==>
      && s.nodes[n].id < |s.nodes[ORIGIN].peers|
      && (s.nodes[n].reply.Replicas? ==> s.nodes[n].reply.id < |s.nodes[ORIGIN].peers|)
  {
    forall m | Member(s, m) ensures GivenId(s.nodes[m]) < |s.nodes[ORIGIN].peers| {
      IdsBelow(s, m);
    }
    forall n | Backup(s, n)
      ensures s.nodes[n].id < |s.nodes[ORIGIN].peers|
      ensures s.nodes[n].reply.Replicas? ==> s.nodes[n].reply.id < |s.nodes[ORIGIN].peers|
    {
      assert BackupShape(s.nodes[n]);
    }
  }

  /** The newcomer's id is above all others, and it is offered everybody. */
  lemma LeaderAcceptKnown(s: System)
    requires JoinPhase(s) && Enabled(s, Accept(ORIGIN))
    ensures EarlierKnown(DoAccept(s, ORIGIN))
  {
    var h := s.nodes[ORIGIN].backlog[0].node;
    JoinPhaseFresh(s);
    AllIdsBelow(s);
    assert Newcomer(s, h) && BackupShape(s.nodes[h]);
    NewestKnows(s, DoAccept(s, ORIGIN), h, s.nodes[ORIGIN].peers);
  }

  /** Process h gets an id above all others, and is offered all of them. */
  lemma NewestKnows(s: System, s': System, h: nat, peers: seq<Info>)
    requires EarlierKnown(s) && h in s'.nodes && s'.nodes[h].id == -1 && s'.nodes[h].reply == Replicas(|peers|, peers)
    requires forall n :: Backup(s', n) && n != h ==> Backup(s, n) && s'.nodes[n] == s.nodes[n]
    requires forall n :: Backup(s, n) ==>
      s.nodes[n].id < |peers| && (s.nodes[n].reply.Replicas? ==> s.nodes[n].reply.id < |peers|)
    requires forall m :: Member(s, m) ==> GivenId(s.nodes[m]) < |peers| && Knows(peers, m)
    ensures EarlierKnown(s')
  {
    forall n | Backup(s', n)
      ensures KnowsBelow(s', s'.nodes[n].peers, s'.nodes[n].id)
      ensures s'.nodes[n].reply.Replicas? ==> KnowsBelow(s', s'.nodes[n].reply.replicas, s'.nodes[n].reply.id)
    {
      forall m | Member(s', m) && m != h ensures Member(s, m) && GivenId(s'.nodes[m]) == GivenId(s.nodes[m]) {
        assert Backup(s', m);
      }
    }
  }

  lemma BackupAcceptKnown(s: System, n: nat)
    requires Shape(s) && ClosedAreDead(s) && AllAlive(s) && EarlierKnown(s) && Enabled(s, Accept(n)) && n != ORIGIN
    ensures EarlierKnown(DoAccept(s, n))
  {
    var node, s' := s.nodes[n], DoAccept(s, n);
    assert BackupShape(node);
    NobodyClosed(s, n);
    NothingClosed(node.peers);
    MoreKnown(s, node.peers, [node.backlog[0]], node.id);
    forall m | Member(s', m) ensures Member(s, m) && GivenId(s'.nodes[m]) == GivenId(s.nodes[m]) {
    }
    StillKnown(s, s');
  }

  lemma {:induction false} AllReachable(s: System, infos: seq<Info>)
    requires forall i :: 0 <= i < |infos| ==> Live(s, infos[i].node)
    ensures Reachable(s, infos) == infos
  {
    if infos != [] {
      AllReachable(s, infos[..|infos| - 1]);
    }
  }

  /** Everybody who was offered is alive, so the newcomer connects to all of them. */
  lemma ConnectsToAll(s: System, n: nat)
    requires AllAlive(s) && GivenRecords(s) && Enabled(s, ReceiveState(n))
    ensures Reachable(s, s.nodes[n].reply.replicas) == s.nodes[n].reply.replicas
  {
    var infos := s.nodes[n].reply.replicas;
    assert AllGiven(s, n, Offered(s.nodes[n]));
    forall i | 0 <= i < |infos| ensures Live(s, infos[i].node) {
      assert GivenOk(s, n, Offered(s.nodes[n])[i]);
    }
    AllReachable(s, infos);
  }

  lemma ReceiveKnown(s: System, n: nat)
    requires JoinPhase(s) && Enabled(s, ReceiveState(n))
    ensures EarlierKnown(DoReceiveState(s, n))
  {
    assert n != ORIGIN && BackupShape(s.nodes[n]);
    ConnectsToAll(s, n);
    ReceivedKnows(s, n);
  }

  lemma ReceivedKnows(s: System, n: nat)
    requires EarlierKnown(s) && Enabled(s, ReceiveState(n)) && n != ORIGIN && s.nodes[n].peers == []
    requires Reachable(s, s.nodes[n].reply.replicas) == s.nodes[n].reply.replicas
    ensures EarlierKnown(DoReceiveState(s, n))
  {
    var s', reply := DoReceiveState(s, n), s.nodes[n].reply;
    assert Backup(s, n) && KnowsBelow(s, reply.replicas, reply.id);
    assert [] + reply.replicas == reply.replicas;
    forall m | Member(s', m) ensures Member(s, m) && GivenId(s'.nodes[m]) == GivenId(s.nodes[m]) {
    }
    forall k | Backup(s', k)
      ensures KnowsBelow(s, s'.nodes[k].peers, s'.nodes[k].id)
      ensures s'.nodes[k].reply.Replicas? ==> KnowsBelow(s, s'.nodes[k].reply.replicas, s'.nodes[k].reply.id)
    {
      assert Backup(s, k);
    }
    StillKnown(s, s');
  }

  lemma JoinWaits(s: System, n: nat)
    requires ORIGIN in s.nodes && NewcomersWait(s) && Enabled(s, Join(n, ORIGIN))
    ensures ORIGIN in DoJoin(s, n, ORIGIN).nodes && NewcomersWait(DoJoin(s, n, ORIGIN))
  {
    var s' := DoJoin(s, n, ORIGIN);
    forall m | Newcomer(s', m) ensures Knows(s'.nodes[ORIGIN].backlog, m) {
      KnowsAppend(s.nodes[ORIGIN].backlog, [Info(n, -1)], m);
      if m == n {
        assert [Info(n, -1)][0].node == m;
      } else {
        assert Newcomer(s, m);
      }
    }
  }

  lemma AcceptWaits(s: System, n: nat)
    requires Shape(s) && Newcomers(s) && NewcomersWait(s) && Enabled(s, Accept(n))
    ensures ORIGIN in DoAccept(s, n).nodes && NewcomersWait(DoAccept(s, n))
  {
    var s' := DoAccept(s, n);
    var backlog := s.nodes[ORIGIN].backlog;
    assert n != ORIGIN ==> BackupShape(s.nodes[n]);
    assert n == ORIGIN ==> Newcomer(s, backlog[0].node) && BackupShape(s.nodes[backlog[0].node]);
    forall m | Newcomer(s', m) ensures Knows(s'.nodes[ORIGIN].backlog, m) {
      assert Newcomer(s, m);
      var i :| 0 <= i < |backlog| && backlog[i].node == m;
      if n == ORIGIN {
        assert backlog[1..][i - 1].node == m;
      }
    }
  }

  lemma ReceiveWaits(s: System, n: nat)
    requires Shape(s) && GivenRecords(s) && NewcomersWait(s) && Enabled(s, ReceiveState(n))
    ensures ORIGIN in DoReceiveState(s, n).nodes && NewcomersWait(DoReceiveState(s, n))
  {
    var s' := DoReceiveState(s, n);
    OriginNotOffered(s, n);
    forall m | Newcomer(s', m) ensures Newcomer(s, m) {
    }
  }

  lemma AcceptKnown(s: System, n: nat)
    requires JoinPhase(s) && Enabled(s, Accept(n))
    ensures EarlierKnown(DoAccept(s, n))
  {
    if n == ORIGIN {
      LeaderAcceptKnown(s);
    } else {
      BackupAcceptKnown(s, n);
    }
  }

  lemma JoinPhaseStep(s: System, a: Action)
    requires JoinPhase(s) && Enabled(s, a) && !a.Crash? && JoinInv(Apply(s, a))
    requires a.Join? ==> a.leader == ORIGIN
    ensures JoinPhase(Apply(s, a))
  {
    assert forall x: nat, b: nat :: Link(s, x, b) == [];
    forall n | n in s.nodes && n != ORIGIN ensures BackupShape(s.nodes[n]) {
    }
    match a
    case Join(n, l) => JoinKnown(s, n); JoinWaits(s, n);
    case Accept(n) => AcceptNumbered(s, n); AcceptKnown(s, n); AcceptWaits(s, n);
    case ReceiveState(n) => ReceiveNumbered(s, n); ReceiveKnown(s, n); ReceiveWaits(s, n);
    case LoseLeader(n) => assert false;
    case Crash(n) =>
    case Deliver(x, b) => assert false;
    case Close(n, p) => assert false;
    case Begin(n) => assert false;
    case Next(n) => assert false;
    case Wake(n) => assert false;
    case Decide(n) => assert false;
    case Reset(n) => assert false;
  }

  /**
   * While no replica has left: entry i of the leader's vector has id i, ids are pairwise distinct, and
   * every backup's vector contains all earlier backups.
   */
  lemma JoinPhaseFacts(actions: seq<Action>)
    requires IsRun(actions) && NoCrash(actions) && JoinsAtOrigin(actions)
    ensures
      var s := After(actions);
      && ORIGIN in s.nodes
      && (forall i :: 0 <= i < |s.nodes[ORIGIN].peers| ==> s.nodes[ORIGIN].peers[i].id == i)
      && (forall n, m :: Member(s, n) && Member(s, m) && n != m ==>
            Paired(s, n, m) && GivenId(s.nodes[n]) != GivenId(s.nodes[m]))
      && forall n :: Backup(s, n) ==> KnowsBelow(s, s.nodes[n].peers, s.nodes[n].id)
  {
    JoinPhaseRun(actions);
  }

  /** Accepting a newcomer keeps the ids of live replicas apart exactly when the new id is fresh. */
  lemma AcceptKeepsIdsExactly(s: System)
    requires JoinInv(s) && Enabled(s, Accept(ORIGIN)) && Live(s, s.nodes[ORIGIN].backlog[0].node)
    ensures DistinctGiven(DoAccept(s, ORIGIN)) <==> FreshId(s, ORIGIN)
  {
    var h := s.nodes[ORIGIN].backlog[0].node;
    assert Newcomer(s, h) && BackupShape(s.nodes[h]);
    if FreshId(s, ORIGIN) {
      LeaderAcceptPairs(s);
    } else {
      var s' := DoAccept(s, ORIGIN);
      var id := |Open(s.nodes[ORIGIN].peers, s.nodes[ORIGIN].closed)|;
      var m :| m in s.nodes && m != ORIGIN && s.nodes[m].alive && GivenId(s.nodes[m]) == id;
      assert m != h;
      assert Member(s', m) && Member(s', h);
    }
  }

  // ----- no replica is accepted after a departure -----

  /** No newcomer waits for the original leader to accept it. */
  predicate NobodyWaits(s: System) {
    ORIGIN in s.nodes ==> s.nodes[ORIGIN].backlog == []
  }

  /** Joins happen at the original leader, and nobody joins or is accepted after a departure. */
  predicate JoinsFirst(actions: seq<Action>)
    requires IsRun(actions)
  {
    actions == [] ||
      var front, a := actions[..|actions| - 1], actions[|actions| - 1];
      && JoinsFirst(front)
      && (a.Join? ==> a.leader == ORIGIN && NoCrash(front))
      && (a.Crash? ==> NobodyWaits(After(front)))
  }

  lemma {:induction false} FirstJoinsAtOrigin(actions: seq<Action>)
    requires IsRun(actions) && JoinsFirst(actions)
    ensures JoinsAtOrigin(actions)
  {
    if actions != [] {
      FirstJoinsAtOrigin(actions[..|actions| - 1]);
    }
  }

  /** Only a join makes somebody wait. */
  lemma StillNobodyWaits(s: System, a: Action)
    requires NobodyWaits(s) && Stage(s, Any) && Enabled(s, a) && !a.Join?
    ensures NobodyWaits(Apply(s, a))
  {
    match a
    case ReceiveState(n) => OriginGetsNoHello(s, n);
    case _ => BacklogStays(s, a);
  }

  lemma BacklogStays(s: System, a: Action)
    requires Enabled(s, a) && !a.Join? && !a.ReceiveState? && ORIGIN in s.nodes && a != Accept(ORIGIN)
    ensures ORIGIN in Apply(s, a).nodes && Apply(s, a).nodes[ORIGIN].backlog == s.nodes[ORIGIN].backlog
  {
    if a.Decide? && !s.nodes[a.n].lostElection {
      CoordinatorNodes(Put(s, a.n, s.nodes[a.n].(leader := true, phase := Resetting)), a.n, s.nodes[a.n].peers);
    }
  }

  lemma OriginGetsNoHello(s: System, n: nat)
    requires Stage(s, Any) && Enabled(s, ReceiveState(n))
    ensures n != ORIGIN && ORIGIN !in Nodes(Reachable(s, s.nodes[n].reply.replicas))
  {
    if Inv(s, Any) {
      assert NodeRecords(s, n, s.nodes[n], Any);
      ReceivePeers(s, n);
    } else {
      OriginNotOffered(s, n);
    }
  }

  /** When everybody who joined was accepted, each replica sees all the earlier ones. */
  lemma AcceptedAreOrdered(s: System)
    requires JoinPhase(s) && NobodyWaits(s)
    ensures Ordered(s)
  {
    forall n | Backup(s, n) ensures Member(s, n) {
      assert BackupShape(s.nodes[n]);
      assert !Newcomer(s, n);
    }
    forall n, m | Backup(s, n) && Backup(s, m) && n != m ensures Before(s, m, n) || Before(s, n, m) {
      assert Member(s, n) && Member(s, m);
      assert BackupShape(s.nodes[n]) && BackupShape(s.nodes[m]);
    }
  }

  lemma CrashOrdered(s: System, n: nat)
    requires Ordered(s) && Live(s, n)
    ensures Ordered(Apply(s, Crash(n)))
  {
    SteadyOrdered(s, Apply(s, Crash(n)));
  }

  /** After a departure, replicas that are in order stay so. */
  lemma StillOrdered(s: System, a: Action)
    requires Ordered(s) && NobodyWaits(s) && Stage(s, Any) && Enabled(s, a) && !a.Join?
    ensures Ordered(Apply(s, a))
  {
    if Inv(s, Any) {
      StepKeeps(s, Any, a);
    } else {
      forall n | n in s.nodes && n != ORIGIN ensures BackupShape(s.nodes[n]) {
      }
      assert forall x: nat, b: nat :: Link(s, x, b) == [];
      match a
      case Accept(n) => AcceptOrdered(s, n);
      case ReceiveState(n) => ReceiveOrdered(s, n);
      case LoseLeader(n) => assert false;
      case Crash(n) => CrashOrdered(s, n);
      case Deliver(x, b) => assert false;
      case Close(n, p) => SteadyOrdered(s, DoClose(s, n, p));
      case Begin(n) => assert false;
      case Next(n) => assert false;
      case Wake(n) => assert false;
      case Decide(n) => assert false;
      case Reset(n) => assert false;
    }
  }

  lemma AcceptOrdered(s: System, n: nat)
    requires Ordered(s) && ClosedAreDead(s) && Enabled(s, Accept(n)) && !s.nodes[n].leader
    ensures Ordered(DoAccept(s, n))
  {
    var s' := DoAccept(s, n);
    forall k, m | Backup(s', k) && Backup(s', m) && Sees(s.nodes[k], m) ensures Sees(s'.nodes[k], m) {
      if k == n {
        AcceptSees(s, n, m);
      }
    }
    SteadyOrdered(s, s');
  }

  /** When nobody is accepted after a departure, the backups are in order at the leader's crash. */
  lemma {:induction false} JoinsFirstSuffices(actions: seq<Action>)
    requires IsRun(actions) && JoinsFirst(actions)
    ensures IsOrderly(actions)
    ensures !NoCrash(actions) ==> NobodyWaits(After(actions)) && Ordered(After(actions))
  {
    if actions != [] {
      var front, a := actions[..|actions| - 1], actions[|actions| - 1];
      JoinsFirstSuffices(front);
      FirstJoinsAtOrigin(front);
      assert actions == front + [a];
      var s := After(front);
      RunInv(front);
      if a.Crash? && NoCrash(front) {
        JoinPhaseRun(front);
        AcceptedAreOrdered(s);
      }
      if !NoCrash(actions) {
        assert NoCrash(front) ==> a.Crash?;
        StillNobodyWaits(s, a);
        StillOrdered(s, a);
      }
    }
  }

  /** The election is safe when no replica joins after a departure. */
  lemma OneLeaderWhenJoinsComeFirst(actions: seq<Action>, n: nat, m: nat)
    requires IsRun(actions) && JoinsFirst(actions)
    requires Live(After(actions), n) && After(actions).nodes[n].leader
    requires Live(After(actions), m) && After(actions).nodes[m].leader
    ensures n == m
  {
    JoinsFirstSuffices(actions);
    AtMostOneLeader(actions, n, m);
  }
}
