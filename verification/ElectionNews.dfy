/** Every live replica watches the leader: it takes a lost connection to it as the start of an election. */
module ElectionNews {
  import opened Election
  import opened ElectionSafety
  import opened ElectionJoin
  import opened ElectionRuns

  /** `m` knows that its connection to `n` leads to a leader, or is about to read so. */
  ghost predicate Watches(s: System, n: nat, m: nat) {
    m in s.nodes && (n in s.nodes[m].toLeader || CoordinatorMsg in Link(s, n, m))
  }

  ghost predicate Announced(s: System) {
    forall n, m :: LeaderFor(s, n, m) ==> Watches(s, n, m)
  }

  /** A leader, and another live process whose handshake is over. */
  ghost predicate LeaderFor(s: System, n: nat, m: nat) {
    && n in s.nodes && s.nodes[n].leader
    && m != n && Live(s, m) && !s.nodes[m].phase.AwaitingState?
  }

  // ----- steps that change one process -----

  lemma PutAnnounced(s: System, k: nat, node: Node)
    requires Announced(s) && k in s.nodes
    requires (node.alive ==> s.nodes[k].alive) && (node.leader ==> s.nodes[k].leader)
    requires s.nodes[k].toLeader <= node.toLeader
    requires s.nodes[k].phase.AwaitingState? ==> node.phase.AwaitingState?
    ensures Announced(Put(s, k, node))
  {
    var s' := Put(s, k, node);
    forall n: nat, m: nat | LeaderFor(s', n, m) ensures Watches(s', n, m) {
      assert LeaderFor(s, n, m);
      assert Watches(s, n, m);
      assert Link(s', n, m) == Link(s, n, m);
    }
  }

  lemma PushAnnounced(s: System, a: nat, b: nat, message: Message)
    requires Announced(s)
    ensures Announced(Push(s, a, b, message))
  {
    var s' := Push(s, a, b, message);
    forall n: nat, m: nat | LeaderFor(s', n, m) ensures Watches(s', n, m) {
      assert LeaderFor(s, n, m);
      assert Watches(s, n, m);
      assert CoordinatorMsg in Link(s, n, m) ==> CoordinatorMsg in Link(s', n, m);
    }
  }

  /** Reading COORDINATOR turns the message into the flag; reading anything else loses nothing. */
  lemma DeliverAnnounced(s: System, a: nat, b: nat)
    requires Announced(s) && Enabled(s, Deliver(a, b))
    ensures Announced(DoDeliver(s, a, b))
  {
    var node, m := s.nodes[b], Link(s, a, b)[0];
    var links := s.links[(a, b) := Link(s, a, b)[1..]];
    var s1 := s.(links := links);
    match m
    case ElectionMsg(id) =>
      PopAnnounced(s, a, b);
      PutAnnounced(s1, b, node.(startElection := true));
      PushAnnounced(Put(s1, b, node.(startElection := true)), b, a, AnswerMsg(!(a != b && id < node.id)));
    case CoordinatorMsg =>
      var s' := Put(s1, b, node.(toLeader := node.toLeader + {a}));
      forall n: nat, k: nat | LeaderFor(s', n, k) ensures Watches(s', n, k) {
        assert LeaderFor(s, n, k);
        assert Watches(s, n, k);
        assert (n, k) != (a, b) ==> Link(s', n, k) == Link(s, n, k);
      }
    case AnswerMsg(lost) =>
      PopAnnounced(s, a, b);
      PutAnnounced(s1, b, node.(lostElection := node.lostElection || lost, answered := node.phase.AwaitingAnswer?));
  }

  lemma PopAnnounced(s: System, a: nat, b: nat)
    requires Announced(s) && Link(s, a, b) != [] && Link(s, a, b)[0] != CoordinatorMsg
    ensures Announced(s.(links := s.links[(a, b) := Link(s, a, b)[1..]]))
  {
    var s' := s.(links := s.links[(a, b) := Link(s, a, b)[1..]]);
    forall n: nat, k: nat | LeaderFor(s', n, k) ensures Watches(s', n, k) {
      assert LeaderFor(s, n, k);
      assert Watches(s, n, k);
      assert Link(s, a, b) == [Link(s, a, b)[0]] + Link(s, a, b)[1..];
      assert CoordinatorMsg in Link(s, n, k) ==> CoordinatorMsg in Link(s', n, k);
    }
  }

  // ----- becoming leader -----

  lemma {:induction false} CoordinatorSent(s: System, n: nat, infos: seq<Info>, k: nat, m: nat)
    ensures
      var s' := SendCoordinator(s, n, infos);
      && s'.nodes == s.nodes
      && (CoordinatorMsg in Link(s', k, m) <==> CoordinatorMsg in Link(s, k, m) || (k == n && Knows(infos, m)))
  {
    if infos != [] {
      var front, last := infos[..|infos| - 1], infos[|infos| - 1];
      CoordinatorSent(s, n, front, k, m);
      KnowsAppend(front, [last], m);
      assert front + [last] == infos;
      assert [last][0] == last;
    }
  }

  /** The winner's vector holds every live process whose handshake is over, but who knows already. */
  ghost predicate ReachesAll(s: System, n: nat)
    requires n in s.nodes
  {
    forall m :: m != n && Live(s, m) && !s.nodes[m].phase.AwaitingState? ==> Watches(s, n, m) || Knows(s.nodes[n].peers, m)
  }

  /** Who watches whom after the winner has sent its announcements. */
  lemma DecideWatches(s: System, n: nat, k: nat, m: nat)
    requires Enabled(s, Decide(n)) && !s.nodes[n].lostElection
    ensures Watches(DoDecide(s, n), k, m) <==> Watches(s, k, m) || (k == n && m in s.nodes && Knows(s.nodes[n].peers, m))
    ensures LeaderFor(DoDecide(s, n), k, m) <==>
            LeaderFor(s, k, m) || (k == n && m != n && Live(s, m) && !s.nodes[m].phase.AwaitingState?)
  {
    var node := s.nodes[n];
    var s1 := Put(s, n, node.(leader := true, phase := Resetting));
    CoordinatorSent(s1, n, node.peers, k, m);
    assert Link(s1, k, m) == Link(s, k, m);
    assert Link(DoDecide(s, n), k, m) == Link(SendCoordinator(s1, n, node.peers), k, m);
  }

  /** Everybody is told of the winner exactly when its vector reaches everybody. */
  lemma AnnouncedExactly(s: System, n: nat)
    requires Announced(s) && Enabled(s, Decide(n)) && !s.nodes[n].lostElection
    ensures Announced(DoDecide(s, n)) <==> ReachesAll(s, n)
  {
    forall k, m
      ensures LeaderFor(DoDecide(s, n), k, m) ==> Watches(DoDecide(s, n), k, m) || (k == n && !ReachesAll(s, n))
    {
      DecideWatches(s, n, k, m);
      assert LeaderFor(s, k, m) ==> Watches(s, k, m);
    }
    if Announced(DoDecide(s, n)) {
      forall m | m != n && Live(s, m) && !s.nodes[m].phase.AwaitingState?
        ensures Watches(s, n, m) || Knows(s.nodes[n].peers, m)
      {
        DecideWatches(s, n, n, m);
        assert LeaderFor(DoDecide(s, n), n, m);
      }
    }
  }

  // ----- joining -----

  lemma JoinAnnounced(s: System, n: nat, l: nat)
    requires Announced(s) && Enabled(s, Join(n, l))
    ensures Announced(DoJoin(s, n, l))
  {
    var s' := DoJoin(s, n, l);
    forall k: nat, m: nat | LeaderFor(s', k, m) ensures Watches(s', k, m) {
      assert LeaderFor(s, k, m);
      assert Watches(s, k, m);
      assert Link(s', k, m) == Link(s, k, m);
    }
  }

  lemma AcceptAnnounced(s: System, n: nat)
    requires Announced(s) && Enabled(s, Accept(n))
    ensures Announced(DoAccept(s, n))
  {
    var s' := DoAccept(s, n);
    forall k: nat, m: nat | LeaderFor(s', k, m) ensures Watches(s', k, m) {
      assert LeaderFor(s, k, m);
      assert Watches(s, k, m);
      assert Link(s', k, m) == Link(s, k, m);
    }
  }

  // ----- the end of a handshake -----

  /** The newcomer watches every leader: the one that it has joined at, and those that it knows to lead. */
  ghost predicate WatchesAll(s: System, n: nat)
    requires n in s.nodes && s.nodes[n].phase.AwaitingState?
  {
    forall k :: k in s.nodes && s.nodes[k].leader && k != n ==> k == s.nodes[n].phase.to || Watches(s, k, n)
  }

  /** The replica that ends its handshake watches the leader of the handshake, beside those it watched. */
  ghost predicate EndsHandshake(s: System, s': System, n: nat)
    requires n in s.nodes && s.nodes[n].phase.AwaitingState?
  {
    && s'.links == s.links && s'.nodes.Keys == s.nodes.Keys
    && !s'.nodes[n].phase.AwaitingState? && s'.nodes[n].alive && s'.nodes[n].leader == s.nodes[n].leader
    && s'.nodes[n].toLeader == s.nodes[n].toLeader + {s.nodes[n].phase.to}
    && forall m :: m in s.nodes && m != n ==> s'.nodes[m] == s.nodes[m].(backlog := s'.nodes[m].backlog)
  }

  /** A replica that ends its handshake misses no announcement exactly when it watches every leader then. */
  lemma HandshakeAnnouncedExactly(s: System, s': System, n: nat)
    requires Announced(s) && n in s.nodes && s.nodes[n].phase.AwaitingState? && EndsHandshake(s, s', n)
    ensures Announced(s') <==> WatchesAll(s, n)
  {
    forall k: nat, m: nat ensures Link(s', k, m) == Link(s, k, m) {
    }
    if Announced(s') {
      forall k | k in s.nodes && s.nodes[k].leader && k != n ensures k == s.nodes[n].phase.to || Watches(s, k, n) {
        assert LeaderFor(s', k, n);
      }
    }
    if WatchesAll(s, n) {
      forall k: nat, m: nat | LeaderFor(s', k, m) ensures Watches(s', k, m) {
        if m != n {
          assert LeaderFor(s, k, m);
        }
      }
    }
  }

  // ----- every step -----

  /** What a step has to meet for nobody to miss an announcement. */
  ghost predicate Tells(s: System, a: Action)
    requires Enabled(s, a)
  {
    match a
    case Decide(n) => s.nodes[n].lostElection || ReachesAll(s, n)
    case ReceiveState(n) => WatchesAll(s, n)
    case LoseLeader(n) => WatchesAll(s, n)
    case _ => true
  }

  lemma CrashAnnounced(s: System, n: nat)
    requires Announced(s) && Enabled(s, Crash(n))
    ensures Announced(Put(s, n, s.nodes[n].(alive := false)))
  {
    PutAnnounced(s, n, s.nodes[n].(alive := false));
  }

  lemma CloseAnnounced(s: System, n: nat, p: nat)
    requires Announced(s) && Enabled(s, Close(n, p))
    ensures Announced(DoClose(s, n, p))
  {
    PutAnnounced(s, n, s.nodes[n].(closed := s.nodes[n].closed + {p},
                                   startElection := s.nodes[n].startElection || p in s.nodes[n].toLeader));
  }

  lemma BeginAnnounced(s: System, n: nat)
    requires Announced(s) && Enabled(s, Begin(n))
    ensures Announced(DoBegin(s, n))
  {
    PutAnnounced(s, n, s.nodes[n].(peers := Open(s.nodes[n].peers, s.nodes[n].closed), phase := Electing(0)));
  }

  lemma NextAnnounced(s: System, n: nat)
    requires Announced(s) && Enabled(s, Next(n))
    ensures Announced(DoNext(s, n))
  {
    var node := s.nodes[n];
    var i := node.phase.next;
    if i >= |node.peers| {
      PutAnnounced(s, n, node.(phase := Deciding));
    } else if node.peers[i].node != n && node.peers[i].id < node.id {
      PutAnnounced(s, n, node.(phase := AwaitingAnswer(i)));
      PushAnnounced(Put(s, n, node.(phase := AwaitingAnswer(i))), n, node.peers[i].node, ElectionMsg(node.id));
    } else {
      PutAnnounced(s, n, node.(phase := Electing(i + 1)));
    }
  }

  lemma WakeAnnounced(s: System, n: nat)
    requires Announced(s) && Enabled(s, Wake(n))
    ensures Announced(DoWake(s, n))
  {
    var node := s.nodes[n];
    PutAnnounced(s, n, node.(answered := false,
                             phase := if node.lostElection then Deciding else Electing(node.phase.next + 1)));
  }

  lemma ResetAnnounced(s: System, n: nat)
    requires Announced(s) && Enabled(s, Reset(n))
    ensures Announced(DoReset(s, n))
  {
    PutAnnounced(s, n, s.nodes[n].(startElection := false, lostElection := false, phase := Accepting));
  }

  lemma DecideAnnouncedExactly(s: System, n: nat)
    requires Announced(s) && Enabled(s, Decide(n))
    ensures Announced(DoDecide(s, n)) <==> Tells(s, Decide(n))
  {
    if s.nodes[n].lostElection {
      PutAnnounced(s, n, s.nodes[n].(phase := Resetting));
    } else {
      AnnouncedExactly(s, n);
    }
  }

  lemma ReceiveAnnouncedExactly(s: System, n: nat)
    requires Announced(s) && Enabled(s, ReceiveState(n))
    ensures Announced(DoReceiveState(s, n)) <==> WatchesAll(s, n)
  {
    HandshakeAnnouncedExactly(s, DoReceiveState(s, n), n);
  }

  lemma LoseLeaderAnnouncedExactly(s: System, n: nat)
    requires Announced(s) && Enabled(s, LoseLeader(n))
    ensures Announced(DoLoseLeader(s, n)) <==> WatchesAll(s, n)
  {
    HandshakeAnnouncedExactly(s, DoLoseLeader(s, n), n);
  }

  lemma StepAnnouncedExactly(s: System, a: Action)
    requires Announced(s) && Enabled(s, a)
    ensures Announced(Apply(s, a)) <==> Tells(s, a)
  {
    match a
    case Join(n, l) => JoinAnnounced(s, n, l);
    case Accept(n) => AcceptAnnounced(s, n);
    case ReceiveState(n) => ReceiveAnnouncedExactly(s, n);
    case LoseLeader(n) => LoseLeaderAnnouncedExactly(s, n);
    case Crash(n) => CrashAnnounced(s, n);
    case Deliver(x, b) => DeliverAnnounced(s, x, b);
    case Close(n, p) => CloseAnnounced(s, n, p);
    case Begin(n) => BeginAnnounced(s, n);
    case Next(n) => NextAnnounced(s, n);
    case Wake(n) => WakeAnnounced(s, n);
    case Decide(n) => DecideAnnouncedExactly(s, n);
    case Reset(n) => ResetAnnounced(s, n);
  }

  // ----- runs -----

  /** No step of the run lets anybody miss an announcement. */
  ghost predicate AlwaysTold(actions: seq<Action>)
    requires IsRun(actions)
  {
    actions == [] ||
      (AlwaysTold(actions[..|actions| - 1])
       && Tells(After(actions[..|actions| - 1]), actions[|actions| - 1]))
  }

  lemma {:induction false} RunAnnounced(actions: seq<Action>)
    requires IsRun(actions) && AlwaysTold(actions)
    ensures Announced(After(actions))
  {
    if actions != [] {
      RunAnnounced(actions[..|actions| - 1]);
      StepAnnouncedExactly(After(actions[..|actions| - 1]), actions[|actions| - 1]);
    }
  }

  ghost predicate AnnouncedAfter(actions: seq<Action>) {
    Announced(After(actions))
  }

  /** In any run at all, everybody is told of every leader all along exactly when no step misses somebody. */
  lemma {:induction false} AlwaysToldExactly(actions: seq<Action>)
    requires IsRun(actions)
    ensures AlwaysTold(actions) <==> AllAlong(AnnouncedAfter, actions)
  {
    if actions == [] {
      RunAnnounced([]);
      assert AnnouncedAfter([]);
    } else {
      var front := actions[..|actions| - 1];
      AlwaysToldExactly(front);
      AllAlongStep(AnnouncedAfter, actions);
      if AlwaysTold(front) {
        RunAnnounced(front);
        StepAnnouncedExactly(After(front), actions[|actions| - 1]);
      }
    }
  }

  lemma CalmDecideTells(s: System, n: nat)
    requires Inv(s, Calm) && Enabled(s, Decide(n))
    ensures Tells(s, Decide(n))
  {
    var node := s.nodes[n];
    forall m | m != n && Live(s, m) ensures Knows(node.peers, m) {
      assert Backup(s, n) && Backup(s, m) && Joined(node);
      assert Sees(node, m);
    }
  }

  /** With fresh ids and the leader's crash between handshakes nobody is missed. */
  lemma {:induction false} DisciplinedIsTold(actions: seq<Action>)
    requires IsRun(actions) && IsDisciplined(actions)
    ensures AlwaysTold(actions)
  {
    if actions != [] {
      var s, a := After(actions[..|actions| - 1]), actions[|actions| - 1];
      DisciplinedIsTold(actions[..|actions| - 1]);
      CalmRunInv(actions[..|actions| - 1]);
      if Inv(s, Calm) {
        assert forall n :: Backup(s, n) ==> Joined(s.nodes[n]);
        if a.Decide? {
          CalmDecideTells(s, a.n);
        }
      } else {
        OnlyOriginLeads(s);
        assert forall n :: n in s.nodes && n != ORIGIN ==> BackupShape(s.nodes[n]);
      }
    }
  }

  /**
   * Once everything the leader sent is read, a live replica takes the end of its connection to the leader
   * as the start of an election.
   */
  lemma LeaderCrashNoticed(actions: seq<Action>, n: nat, m: nat)
    requires IsRun(actions) && AlwaysTold(actions)
    requires LeaderFor(After(actions), n, m) && Enabled(After(actions), Close(m, n))
    ensures DoClose(After(actions), m, n).nodes[m].startElection
  {
    RunAnnounced(actions);
    assert Watches(After(actions), n, m);
  }
}
