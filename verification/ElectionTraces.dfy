/** What can happen after a state, under the assumed environment: crashes noticed, elections won. */
module ElectionTraces {
  import opened Election
  import opened ElectionSafety

  /** A run with the states it goes through. */
  datatype Trace = Trace(states: seq<System>, actions: seq<Action>)

  ghost predicate Goes(s: System, a: Action, t: System) {
    Enabled(s, a) && Disciplined(s, a) && Apply(s, a) == t
  }

  ghost predicate Leads(r: Trace, s: System, t: System) {
    && |r.states| == |r.actions| + 1 && r.states[0] == s && r.states[|r.actions|] == t
    && forall i :: 0 <= i < |r.actions| ==> Goes(r.states[i], r.actions[i], r.states[i + 1])
  }

  /** The environment lets the system get from one state to the other. */
  ghost predicate CanReach(s: System, t: System) {
    exists r :: Leads(r, s, t)
  }

  lemma Stay(s: System)
    ensures CanReach(s, s)
  {
    assert Leads(Trace([s], []), s, s);
  }

  lemma OneMore(s: System, t: System, a: Action, u: System)
    requires CanReach(s, t) && Goes(t, a, u)
    ensures CanReach(s, u)
  {
    var r :| Leads(r, s, t);
    var longer := Trace(r.states + [u], r.actions + [a]);
    forall i | 0 <= i < |longer.actions| ensures Goes(longer.states[i], longer.actions[i], longer.states[i + 1]) {
      if i < |r.actions| {
        assert Goes(r.states[i], r.actions[i], r.states[i + 1]);
      }
    }
    assert Leads(longer, s, u);
  }

  lemma {:induction false} ReachThrough(s: System, t: System, r: Trace, u: System, k: nat)
    requires CanReach(s, t) && Leads(r, t, u) && k <= |r.actions|
    ensures CanReach(s, r.states[k])
  {
    if k > 0 {
      ReachThrough(s, t, r, u, k - 1);
      assert Goes(r.states[k - 1], r.actions[k - 1], r.states[k]);
      OneMore(s, r.states[k - 1], r.actions[k - 1], r.states[k]);
    }
  }

  lemma Transitive(s: System, t: System, u: System)
    requires CanReach(s, t) && CanReach(t, u)
    ensures CanReach(s, u)
  {
    var r :| Leads(r, t, u);
    ReachThrough(s, t, r, u, |r.actions|);
  }

  /** The state is reached by a run, which the environment allows. */
  ghost predicate ReachedBy(run: seq<Action>, s: System) {
    IsRun(run) && IsDisciplined(run) && After(run) == s
  }

  /** The same without the environment. */
  ghost predicate RunTo(run: seq<Action>, s: System) {
    IsRun(run) && After(run) == s
  }

  lemma OneMoreAction(run: seq<Action>, s: System, a: Action)
    requires RunTo(run, s) && Enabled(s, a)
    ensures RunTo(run + [a], Apply(s, a))
    ensures ReachedBy(run, s) && Disciplined(s, a) ==> ReachedBy(run + [a], Apply(s, a))
  {
    assert (run + [a])[..|run|] == run;
  }

  lemma PrefixGrows(run: seq<Action>, more: seq<Action>, k: nat)
    requires 0 < k <= |more|
    ensures run + more[..k] == run + more[..k - 1] + [more[k - 1]]
  {
  }

  lemma {:induction false} RunOn(run: seq<Action>, s: System, r: Trace, u: System, k: nat)
    requires RunTo(run, s) && Leads(r, s, u) && k <= |r.actions|
    ensures RunTo(run + r.actions[..k], r.states[k])
    ensures ReachedBy(run, s) ==> ReachedBy(run + r.actions[..k], r.states[k])
  {
    if k == 0 {
      assert run + r.actions[..0] == run;
    } else {
      RunOn(run, s, r, u, k - 1);
      assert Goes(r.states[k - 1], r.actions[k - 1], r.states[k]);
      OneMoreAction(run + r.actions[..k - 1], r.states[k - 1], r.actions[k - 1]);
      PrefixGrows(run, r.actions, k);
    }
  }

  /** A run goes on, and a disciplined one as a disciplined one. */
  lemma ReachByRun(run: seq<Action>, s: System, t: System)
    requires RunTo(run, s) && CanReach(s, t)
    ensures exists longer :: RunTo(longer, t)
    ensures ReachedBy(run, s) ==> exists longer :: ReachedBy(longer, t)
  {
    var r :| Leads(r, s, t);
    RunOn(run, s, r, t, |r.actions|);
  }

  lemma NoActions(run: seq<Action>)
    requires |run| == 0
    ensures ReachedBy(run, INITIAL_SYSTEM)
  {
  }

  lemma ReachableByRun(t: System)
    requires CanReach(INITIAL_SYSTEM, t)
    ensures exists run :: ReachedBy(run, t)
  {
    var run: seq<Action> := seq(0, i => Join(1, 0));
    NoActions(run);
    ReachByRun(run, INITIAL_SYSTEM, t);
  }

  // ----- one process notices crashes, and elects itself -----

  lemma PutTwice(s: System, n: nat, x: Node, y: Node)
    ensures Put(Put(s, n, x), n, y) == Put(s, n, y)
  {
    assert Put(Put(s, n, x), n, y).nodes == Put(s, n, y).nodes;
  }

  lemma PutSame(s: System, n: nat)
    requires n in s.nodes
    ensures Put(s, n, s.nodes[n]) == s
  {
    assert Put(s, n, s.nodes[n]).nodes == s.nodes;
  }

  /** The dead peers of `n` whose connection has not been seen to end. */
  function Unnoticed(s: System, n: nat): set<nat>
    requires n in s.nodes
  {
    set p | p in s.nodes[n].handlers && p in s.nodes && !s.nodes[p].alive && p !in s.nodes[n].closed
  }

  ghost predicate NothingSent(s: System) {
    forall a: nat, b: nat :: Link(s, a, b) == []
  }

  /** The node after it has noticed every crash. */
  function Noticed(s: System, n: nat): Node
    requires n in s.nodes
  {
    var node := s.nodes[n];
    node.(closed := node.closed + Unnoticed(s, n),
          startElection := node.startElection || Unnoticed(s, n) * node.toLeader != {})
  }

  lemma {:induction false} NoticeAll(s: System, n: nat)
    requires Live(s, n) && NothingSent(s)
    ensures CanReach(s, Put(s, n, Noticed(s, n)))
    decreases |Unnoticed(s, n)|
  {
    if Unnoticed(s, n) == {} {
      PutSame(s, n);
      assert s.nodes[n].closed + {} == s.nodes[n].closed;
      assert Noticed(s, n) == s.nodes[n];
      Stay(s);
    } else {
      var p :| p in Unnoticed(s, n);
      NoticeOne(s, n, p);
      var s1 := DoClose(s, n, p);
      Stay(s);
      OneMore(s, s, Close(n, p), s1);
      NoticeAll(s1, n);
      Transitive(s, s1, Put(s, n, Noticed(s, n)));
    }
  }

  lemma NoticeOne(s: System, n: nat, p: nat)
    requires Live(s, n) && NothingSent(s) && p in Unnoticed(s, n)
    ensures Enabled(s, Close(n, p))
    ensures
      var s1 := DoClose(s, n, p);
      && Live(s1, n) && NothingSent(s1) && Unnoticed(s1, n) == Unnoticed(s, n) - {p}
      && Put(s1, n, Noticed(s1, n)) == Put(s, n, Noticed(s, n))
  {
    var s1 := DoClose(s, n, p);
    assert Link(s, p, n) == [];
    forall a: nat, b: nat ensures Link(s1, a, b) == [] {
      assert Link(s, a, b) == [];
    }
    var u, u1 := Unnoticed(s, n), Unnoticed(s1, n);
    assert u1 == u - {p};
    assert s.nodes[n].closed + {p} + u1 == s.nodes[n].closed + u;
    assert u * s.nodes[n].toLeader != {} <==> p in s.nodes[n].toLeader || u1 * s.nodes[n].toLeader != {} by {
      if u * s.nodes[n].toLeader != {} {
        var q :| q in u * s.nodes[n].toLeader;
        assert q == p || q in u1 * s.nodes[n].toLeader;
      }
      if u1 * s.nodes[n].toLeader != {} {
        var q :| q in u1 * s.nodes[n].toLeader;
        assert q in u * s.nodes[n].toLeader;
      }
      assert p in s.nodes[n].toLeader ==> p in u * s.nodes[n].toLeader;
    }
    PutTwice(s, n, s1.nodes[n], Noticed(s1, n));
  }

  // ----- one process elects itself -----

  /** Nobody in the list is greater than process `n`. */
  ghost predicate NoneBefore(infos: seq<Info>, id: int) {
    forall i :: 0 <= i < |infos| ==> infos[i].id >= id
  }

  lemma {:induction false} LooksOn(s: System, n: nat, i: nat)
    requires Live(s, n) && s.nodes[n].phase == Electing(i) && i <= |s.nodes[n].peers|
    requires NoneBefore(s.nodes[n].peers, s.nodes[n].id)
    ensures CanReach(s, Put(s, n, s.nodes[n].(phase := Deciding)))
    decreases |s.nodes[n].peers| - i
  {
    var node := s.nodes[n];
    Stay(s);
    if i == |node.peers| {
      OneMore(s, s, Next(n), Put(s, n, node.(phase := Deciding)));
    } else {
      var s1 := Put(s, n, node.(phase := Electing(i + 1)));
      OneMore(s, s, Next(n), s1);
      LooksOn(s1, n, i + 1);
      PutTwice(s, n, node.(phase := Electing(i + 1)), node.(phase := Deciding));
      Transitive(s, s1, Put(s, n, node.(phase := Deciding)));
    }
  }

  /** The vector and the flags of a process that has just won. */
  function Winner(node: Node): Node {
    node.(peers := Open(node.peers, node.closed), leader := true, phase := Resetting)
  }

  /** A process that has an election to run, and knows of no connected replica before it, wins. */
  lemma ElectsItself(s: System, n: nat) returns (t: System)
    requires Live(s, n) && s.nodes[n].phase.Accepting? && s.nodes[n].startElection && !s.nodes[n].lostElection
    requires NoneBefore(Open(s.nodes[n].peers, s.nodes[n].closed), s.nodes[n].id)
    ensures CanReach(s, t) && t.nodes == s.nodes[n := Winner(s.nodes[n])]
  {
    var node := s.nodes[n];
    var open := Open(node.peers, node.closed);
    var s1 := Put(s, n, node.(peers := open, phase := Electing(0)));
    Stay(s);
    OneMore(s, s, Begin(n), s1);
    LooksOn(s1, n, 0);
    var s2 := Put(s, n, node.(peers := open, phase := Deciding));
    PutTwice(s, n, node.(peers := open, phase := Electing(0)), node.(peers := open, phase := Deciding));
    Transitive(s, s1, s2);
    t := DoDecide(s2, n);
    OneMore(s, s2, Decide(n), t);
    CoordinatorNodes(Put(s2, n, s2.nodes[n].(leader := true, phase := Resetting)), n, open);
    PutTwice(s, n, s2.nodes[n], Winner(node));
  }

  // ----- two processes are left -----

  ghost predicate TwoLead(s: System, a: nat, b: nat) {
    a != b && Live(s, a) && Live(s, b) && s.nodes[a].leader && s.nodes[b].leader
  }

  /** A process that watches the dead leader, and would run an election if it noticed the crash. */
  ghost predicate Orphan(s: System, n: nat) {
    && ORIGIN in s.nodes && !s.nodes[ORIGIN].alive
    && n != ORIGIN && Live(s, n) && s.nodes[n].phase.Accepting? && !s.nodes[n].lostElection
    && ORIGIN in s.nodes[n].handlers && ORIGIN in s.nodes[n].toLeader && ORIGIN !in s.nodes[n].closed
  }

  /** Every recorded replica has a handler, and those that are alive are not before process `n`. */
  ghost predicate NothingBefore(s: System, n: nat)
    requires n in s.nodes
  {
    forall i :: 0 <= i < |s.nodes[n].peers| ==> var info := s.nodes[n].peers[i];
      && info.node in s.nodes[n].handlers && info.node in s.nodes
      && (s.nodes[info.node].alive ==> info.id >= s.nodes[n].id)
  }

  lemma OrphanElects(s: System, n: nat)
    requires Orphan(s, n) && NothingBefore(s, n)
    ensures Noticed(s, n).startElection
    ensures NoneBefore(Open(Noticed(s, n).peers, Noticed(s, n).closed), s.nodes[n].id)
  {
    var node := Noticed(s, n);
    assert ORIGIN in Unnoticed(s, n) * s.nodes[n].toLeader;
    var open := Open(node.peers, node.closed);
    forall i | 0 <= i < |open| ensures open[i].id >= node.id {
      OpenIn(node.peers, node.closed, open[i]);
      var j :| 0 <= j < |node.peers| && node.peers[j] == open[i];
      assert open[i].node !in Unnoticed(s, n) && open[i].node !in s.nodes[n].closed;
    }
  }

  /** Two orphans that are not before each other both become leader. */
  lemma BothElected(s: System, a: nat, b: nat)
    requires a != b && Orphan(s, a) && Orphan(s, b) && NothingBefore(s, a) && NothingBefore(s, b) && NothingSent(s)
    ensures exists u :: CanReach(s, u) && TwoLead(u, a, b)
  {
    OrphanElects(s, a);
    OrphanElects(s, b);
    NoticeAll(s, a);
    var s1 := Put(s, a, Noticed(s, a));
    forall x: nat, y: nat ensures Link(s1, x, y) == [] {
      assert Link(s, x, y) == [];
    }
    assert Unnoticed(s1, b) == Unnoticed(s, b);
    NoticeAll(s1, b);
    var s2 := Put(s1, b, Noticed(s1, b));
    Transitive(s, s1, s2);
    var s3 := ElectsItself(s2, a);
    Transitive(s, s2, s3);
    var s4 := ElectsItself(s3, b);
    Transitive(s, s3, s4);
    assert TwoLead(s4, a, b);
  }
}
