/** How a process that has asked a lower one gets its answer, and goes back to accepting connections. */
module ElectionProgress {
  import opened Election
  import opened ElectionSafety
  import opened ElectionTraces

  /** The process is out of the election, with nothing left over from it. */
  function Returned(node: Node): Node {
    node.(phase := Accepting, startElection := false, lostElection := false, answered := false)
  }

  /** An answer is under way to a process that waits for one. */
  predicate Answered(s: System, b: nat, n: nat, lost: bool) {
    Enabled(s, Deliver(b, n)) && Link(s, b, n)[0] == AnswerMsg(lost) && s.nodes[n].phase.AwaitingAnswer?
  }

  /** No answer is lost on a process that waits: it can go on, and knows whether it has lost. */
  lemma AnswerWakes(s: System, b: nat, n: nat, lost: bool)
    requires Answered(s, b, n, lost)
    ensures
      var t := Apply(s, Deliver(b, n));
      && Enabled(t, Wake(n)) && Link(t, b, n) == Link(s, b, n)[1..]
      && Apply(t, Wake(n)).nodes[n] ==
           if lost || s.nodes[n].lostElection
           then s.nodes[n].(phase := Deciding, lostElection := true, answered := false)
           else s.nodes[n].(phase := Electing(s.nodes[n].phase.next + 1), answered := false)
  {
  }

  /** A process that has lost leads nobody and clears its flags. */
  lemma LostReturns(s: System, n: nat)
    requires Live(s, n) && s.nodes[n].phase.Deciding? && s.nodes[n].lostElection && !s.nodes[n].answered
    ensures CanReach(s, Put(s, n, Returned(s.nodes[n])))
  {
    var t := Put(s, n, s.nodes[n].(phase := Resetting));
    Stay(s);
    OneMore(s, s, Decide(n), t);
    PutTwice(s, n, t.nodes[n], Returned(s.nodes[n]));
    OneMore(s, t, Reset(n), Put(s, n, Returned(s.nodes[n])));
  }

  /** An answer "Lost" takes the process that waits for it back, and nobody else notices. */
  lemma LoserReturns(s: System, b: nat, n: nat)
    requires Answered(s, b, n, true)
    ensures CanReach(s, Put(s, n, Returned(s.nodes[n])).(links := s.links[(b, n) := Link(s, b, n)[1..]]))
  {
    var node := s.nodes[n];
    var read := s.(links := s.links[(b, n) := Link(s, b, n)[1..]]);
    var told := node.(lostElection := true, answered := true);
    var woken := told.(phase := Deciding, answered := false);
    Stay(s);
    OneMore(s, s, Deliver(b, n), Put(read, n, told));
    PutTwice(read, n, told, woken);
    OneMore(s, Put(read, n, told), Wake(n), Put(read, n, woken));
    LostReturns(Put(read, n, woken), n);
    PutTwice(read, n, woken, Returned(node));
    Transitive(s, Put(read, n, woken), Put(read, n, Returned(node)));
  }

  /** The two have a connection with nothing under way on it. */
  predicate Idle(s: System, n: nat, b: nat) {
    && Live(s, n) && Live(s, b) && n != b
    && b in s.nodes[n].handlers && b !in s.nodes[n].closed && n in s.nodes[b].handlers && n !in s.nodes[b].closed
    && Link(s, n, b) == [] && Link(s, b, n) == []
  }

  /** The next one that the process asks is `b`, which has no higher id. */
  predicate Asks(s: System, n: nat, b: nat) {
    && Enabled(s, Next(n))
    && var node := s.nodes[n];
    && var i := node.phase.next;
    && i < |node.peers| && node.peers[i].node == b && node.peers[i].id < node.id
    && Idle(s, n, b) && s.nodes[b].id <= node.id
  }

  /** The whole exchange: the one that asks goes back, the one that is asked has an election of its own to start. */
  lemma AskingHandsOver(s: System, n: nat, b: nat) returns (t: System)
    requires Asks(s, n, b)
    ensures CanReach(s, t)
    ensures t.nodes == s.nodes[n := Returned(s.nodes[n])][b := s.nodes[b].(startElection := true)]
    ensures t.elected == s.elected && forall x, y :: Link(t, x, y) == Link(s, x, y)
  {
    var asked := Apply(s, Next(n));
    Stay(s);
    OneMore(s, s, Next(n), asked);
    assert Link(asked, n, b) == [ElectionMsg(s.nodes[n].id)];
    var answered := Apply(asked, Deliver(n, b));
    OneMore(s, asked, Deliver(n, b), answered);
    assert Link(answered, b, n) == [AnswerMsg(true)];
    LoserReturns(answered, b, n);
    t := Put(answered, n, Returned(answered.nodes[n])).(links := answered.links[(b, n) := []]);
    Transitive(s, answered, t);
  }
}
