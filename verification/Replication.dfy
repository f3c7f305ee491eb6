/**
 * Primary-backup replication of a state over FIFO links.  The leader sends its whole state, printed,
 * after each change; a backup replaces its own state by what it reads.  Both managers are replicated
 * like this, so the state, its text form and the meaning of "same state" are parameters.
 */
module Replication {
  import opened InputStream

  /** What a backup holds, and where in the leader's history that is. */
  datatype Held<S> = Nothing | Holds(state: S, position: nat)

  /** A backup and the link to it: the updates under way, and their positions in the history. */
  datatype Peer<S> = Peer(link: seq<string>, underWay: seq<nat>, held: Held<S>)

  datatype Cluster<S> = Cluster(
    current: S,                   // the leader's state, as far as it is replicated
    history: seq<S>,              // every state that was ever sent, in order
    peers: map<nat, Peer<S>>)

  datatype Action<S> =
    | Publish(state: S, texts: map<nat, string>) // a change, and the callback's updates
    | Drift(state: S)                            // a change without a callback
    | Join(b: nat, text: string)                 // a handshake, with the initial update
    | Apply(b: nat)                              // a backup reads an update

  function Initial<S>(state: S): Cluster<S> {
    Cluster(state, [], map[])
  }

  /** The text is read as the state. */
  ghost predicate Carries<S>(parse: string -> Read<S>, text: string, s: S) {
    parse(text).Got? && parse(text).value == s
  }

  ghost predicate Enabled<S(!new)>(parse: string -> Read<S>, same: (S, S) -> bool, c: Cluster<S>, a: Action<S>) {
    match a
    case Publish(s, texts) => texts.Keys == c.peers.Keys && forall b :: b in texts ==> Carries(parse, texts[b], s)
    case Drift(s) => same(c.current, s)
    case Join(b, text) => b !in c.peers && Carries(parse, text, c.current)
    case Apply(b) => b in c.peers && CanRead(parse, c.peers[b])
  }

  ghost predicate CanRead<S(!new)>(parse: string -> Read<S>, p: Peer<S>) {
    p.link != [] && p.underWay != [] && parse(p.link[0]).Got?
  }

  ghost function Sent<S>(p: Peer<S>, text: string, position: nat): Peer<S> {
    p.(link := p.link + [text], underWay := p.underWay + [position])
  }

  ghost function Applied<S(!new)>(parse: string -> Read<S>, p: Peer<S>): Peer<S>
    requires CanRead(parse, p)
  {
    Peer(p.link[1..], p.underWay[1..], Holds(parse(p.link[0]).value, p.underWay[0]))
  }

  ghost function Next<S(!new)>(parse: string -> Read<S>, same: (S, S) -> bool, c: Cluster<S>, a: Action<S>): Cluster<S>
    requires Enabled(parse, same, c, a)
  {
    match a
    case Publish(s, texts) =>
      Cluster(s, c.history + [s], map b | b in c.peers :: Sent(c.peers[b], texts[b], |c.history|))
    case Drift(s) => c.(current := s)
    case Join(b, text) =>
      c.(history := c.history + [c.current], peers := c.peers[b := Peer([text], [|c.history|], Nothing)])
    case Apply(b) => c.(peers := c.peers[b := Applied(parse, c.peers[b])])
  }

  function StateAfter<S>(c: Cluster<S>, a: Action<S>): S {
    if a.Publish? || a.Drift? then a.state else c.current
  }

  /** Publishing and joining add the leader's state to the history, and nothing else does. */
  function Recorded<S>(c: Cluster<S>, a: Action<S>): seq<S> {
    if a.Publish? || a.Join? then [StateAfter(c, a)] else []
  }

  lemma NextShape<S(!new)>(parse: string -> Read<S>, same: (S, S) -> bool, c: Cluster<S>, a: Action<S>)
    requires Enabled(parse, same, c, a)
    ensures Next(parse, same, c, a).current == StateAfter(c, a)
    ensures Next(parse, same, c, a).history == c.history + Recorded(c, a)
  {
  }

  // ----- the invariant, peer by peer -----

  ghost predicate LinkOk<S(!new)>(parse: string -> Read<S>, history: seq<S>, p: Peer<S>) {
    && |p.link| == |p.underWay|
    && (forall i :: 0 <= i < |p.link| ==>
          p.underWay[i] < |history| && Carries(parse, p.link[i], history[p.underWay[i]]))
    && (forall i, j :: 0 <= i < j < |p.underWay| ==> p.underWay[i] < p.underWay[j])
  }

  /** A backup holds a past state, older than everything under way to it. */
  ghost predicate HeldOk<S(!new)>(history: seq<S>, p: Peer<S>) {
    match p.held
    case Nothing => p.underWay != []
    case Holds(s, k) => k < |history| && s == history[k] && forall i :: 0 <= i < |p.underWay| ==> k < p.underWay[i]
  }

  /** The position of the last state sent to a backup. */
  function Latest<S>(p: Peer<S>): nat
    requires p.underWay != [] || p.held.Holds?
  {
    if p.underWay != [] then p.underWay[|p.underWay| - 1] else p.held.position
  }

  ghost predicate PeerOk<S(!new)>(parse: string -> Read<S>, same: (S, S) -> bool, history: seq<S>, current: S, p: Peer<S>) {
    LinkOk(parse, history, p) && HeldOk(history, p) && Latest(p) < |history| && same(history[Latest(p)], current)
  }

  ghost predicate Inv<S(!new)>(parse: string -> Read<S>, same: (S, S) -> bool, c: Cluster<S>) {
    forall b :: b in c.peers ==> PeerOk(parse, same, c.history, c.current, c.peers[b])
  }

  ghost predicate Equivalence<S(!new)>(same: (S, S) -> bool) {
    && (forall x :: same(x, x))
    && (forall x, y, z :: same(x, y) && same(y, z) ==> same(x, z))
  }

  lemma LinkGrows<S(!new)>(parse: string -> Read<S>, history: seq<S>, s: S, p: Peer<S>, text: string)
    requires LinkOk(parse, history, p) && Carries(parse, text, s)
    ensures LinkOk(parse, history + [s], Sent(p, text, |history|))
  {
    var after := history + [s];
    forall i | 0 <= i < |p.link|
      ensures p.underWay[i] < |after| && Carries(parse, p.link[i], after[p.underWay[i]])
    {
      assert after[p.underWay[i]] == history[p.underWay[i]];
    }
    assert after[|history|] == s;
  }

  /** After an update is sent to a peer, the last state sent to it is the current one. */
  lemma SentKeeps<S(!new)>(
    parse: string -> Read<S>, same: (S, S) -> bool, history: seq<S>, s: S, p: Peer<S>, text: string)
    requires Equivalence(same) && LinkOk(parse, history, p) && HeldOk(history, p) && Carries(parse, text, s)
    ensures PeerOk(parse, same, history + [s], s, Sent(p, text, |history|))
  {
    LinkGrows(parse, history, s, p, text);
    assert (history + [s])[|history|] == s;
  }

  /** A new entry of the history that is the current state matters to the newcomer only. */
  lemma OthersKeep<S(!new)>(parse: string -> Read<S>, same: (S, S) -> bool, history: seq<S>, current: S, p: Peer<S>)
    requires PeerOk(parse, same, history, current, p)
    ensures PeerOk(parse, same, history + [current], current, p)
  {
    var after := history + [current];
    forall i | 0 <= i < |p.link|
      ensures p.underWay[i] < |after| && Carries(parse, p.link[i], after[p.underWay[i]])
    {
      assert after[p.underWay[i]] == history[p.underWay[i]];
    }
    assert after[Latest(p)] == history[Latest(p)];
  }

  lemma NewcomerOk<S(!new)>(parse: string -> Read<S>, same: (S, S) -> bool, history: seq<S>, current: S, text: string)
    requires Equivalence(same) && Carries(parse, text, current)
    ensures PeerOk(parse, same, history + [current], current, Peer([text], [|history|], Nothing))
  {
    assert (history + [current])[|history|] == current;
  }

  lemma AppliedKeeps<S(!new)>(parse: string -> Read<S>, same: (S, S) -> bool, history: seq<S>, current: S, p: Peer<S>)
    requires PeerOk(parse, same, history, current, p) && p.link != []
    ensures CanRead(parse, p) && PeerOk(parse, same, history, current, Applied(parse, p))
  {
    var rest := p.underWay[1..];
    assert Carries(parse, p.link[0], history[p.underWay[0]]);
    forall i | 0 <= i < |rest|
      ensures rest[i] < |history| && Carries(parse, p.link[1..][i], history[rest[i]])
    {
      assert rest[i] == p.underWay[i + 1];
    }
    assert rest != [] ==> rest[|rest| - 1] == p.underWay[|p.underWay| - 1];
  }

  lemma StepKeeps<S(!new)>(parse: string -> Read<S>, same: (S, S) -> bool, c: Cluster<S>, a: Action<S>)
    requires Equivalence(same) && Inv(parse, same, c) && Enabled(parse, same, c, a)
    ensures Inv(parse, same, Next(parse, same, c, a))
  {
    var c' := Next(parse, same, c, a);
    forall b | b in c'.peers ensures PeerOk(parse, same, c'.history, c'.current, c'.peers[b]) {
      match a
      case Publish(s, texts) =>
        assert b in texts;
        SentKeeps(parse, same, c.history, s, c.peers[b], texts[b]);
      case Drift(s) =>
        assert PeerOk(parse, same, c.history, c.current, c.peers[b]);
      case Join(n, text) =>
        if b == n {
          NewcomerOk(parse, same, c.history, c.current, text);
        } else {
          OthersKeep(parse, same, c.history, c.current, c.peers[b]);
        }
      case Apply(n) =>
        if b == n {
          AppliedKeeps(parse, same, c.history, c.current, c.peers[b]);
        }
    }
  }

  // ----- runs -----

  /** The cluster after more actions; one that cannot happen has no effect. */
  ghost function Continue<S(!new)>(parse: string -> Read<S>, same: (S, S) -> bool, c: Cluster<S>, actions: seq<Action<S>>): Cluster<S> {
    if actions == [] then c
    else
      var before := Continue(parse, same, c, actions[..|actions| - 1]);
      var a := actions[|actions| - 1];
      if Enabled(parse, same, before, a) then Next(parse, same, before, a) else before
  }

  /** The cluster after a run from the start. */
  ghost function After<S(!new)>(parse: string -> Read<S>, same: (S, S) -> bool, start: S, actions: seq<Action<S>>): Cluster<S> {
    Continue(parse, same, Initial(start), actions)
  }

  lemma {:induction false} ContinueKeeps<S(!new)>(parse: string -> Read<S>, same: (S, S) -> bool, c: Cluster<S>, actions: seq<Action<S>>)
    requires Equivalence(same) && Inv(parse, same, c)
    ensures Inv(parse, same, Continue(parse, same, c, actions))
    ensures c.peers.Keys <= Continue(parse, same, c, actions).peers.Keys
  {
    if actions != [] {
      ContinueKeeps(parse, same, c, actions[..|actions| - 1]);
      var before := Continue(parse, same, c, actions[..|actions| - 1]);
      if Enabled(parse, same, before, actions[|actions| - 1]) {
        StepKeeps(parse, same, before, actions[|actions| - 1]);
      }
    }
  }

  lemma RunKeeps<S(!new)>(parse: string -> Read<S>, same: (S, S) -> bool, start: S, actions: seq<Action<S>>)
    requires Equivalence(same)
    ensures Inv(parse, same, After(parse, same, start, actions))
  {
    ContinueKeeps(parse, same, Initial(start), actions);
  }

  /** An update under way can always be read: no backup is ever stopped by one. */
  lemma UpdatesReadable<S(!new)>(parse: string -> Read<S>, same: (S, S) -> bool, start: S, actions: seq<Action<S>>, b: nat)
    requires Equivalence(same)
    requires b in After(parse, same, start, actions).peers && After(parse, same, start, actions).peers[b].link != []
    ensures Enabled(parse, same, After(parse, same, start, actions), Apply(b))
  {
    RunKeeps(parse, same, start, actions);
    var c := After(parse, same, start, actions);
    AppliedKeeps(parse, same, c.history, c.current, c.peers[b]);
  }

  /** A backup holds a state that the leader had, and the leader's own state once its link is drained. */
  lemma BackupsFollow<S(!new)>(parse: string -> Read<S>, same: (S, S) -> bool, start: S, actions: seq<Action<S>>, b: nat)
    requires Equivalence(same)
    requires b in After(parse, same, start, actions).peers
    ensures
      var c := After(parse, same, start, actions);
      var p := c.peers[b];
      && (p.held.Holds? ==> p.held.position < |c.history| && p.held.state == c.history[p.held.position])
      && (p.link == [] ==> p.held.Holds? && same(p.held.state, c.current))
  {
    RunKeeps(parse, same, start, actions);
    var c := After(parse, same, start, actions);
    assert PeerOk(parse, same, c.history, c.current, c.peers[b]);
  }

  ghost predicate Identical<S>(a: S, b: S) {
    a == b
  }

  /** No change without a callback changes what is replicated. */
  ghost predicate NoDrift<S(!new)>(parse: string -> Read<S>, same: (S, S) -> bool, c: Cluster<S>, actions: seq<Action<S>>) {
    actions == [] ||
      (NoDrift(parse, same, c, actions[..|actions| - 1])
       && (actions[|actions| - 1].Drift? ==>
             actions[|actions| - 1].state == Continue(parse, same, c, actions[..|actions| - 1]).current))
  }

  lemma {:induction false} NoDriftIsExact<S(!new)>(
    parse: string -> Read<S>, same: (S, S) -> bool, c: Cluster<S>, actions: seq<Action<S>>)
    requires Equivalence(same) && NoDrift(parse, same, c, actions)
    ensures Continue(parse, same, c, actions) == Continue(parse, Identical, c, actions)
  {
    if actions != [] {
      NoDriftIsExact(parse, same, c, actions[..|actions| - 1]);
      var before, a := Continue(parse, same, c, actions[..|actions| - 1]), actions[|actions| - 1];
      assert Enabled(parse, same, before, a) <==> Enabled(parse, Identical, before, a);
    }
  }

  /** Then a drained backup does not only hold the same state, but the very state of the leader. */
  lemma BackupsEqual<S(!new)>(parse: string -> Read<S>, same: (S, S) -> bool, start: S, actions: seq<Action<S>>, b: nat)
    requires Equivalence(same) && NoDrift(parse, same, Initial(start), actions)
    requires b in After(parse, same, start, actions).peers && After(parse, same, start, actions).peers[b].link == []
    ensures
      var c := After(parse, same, start, actions);
      c.peers[b].held.Holds? && c.peers[b].held.state == c.current
  {
    NoDriftIsExact(parse, same, Initial(start), actions);
    IdenticalIsEquivalence<S>();
    BackupsFollow(parse, Identical, start, actions, b);
  }

  lemma IdenticalIsEquivalence<S(!new)>()
    ensures Equivalence<S>(Identical)
  {
  }

  /** One step never takes a backup back in the history. */
  lemma StepForward<S(!new)>(parse: string -> Read<S>, same: (S, S) -> bool, c: Cluster<S>, a: Action<S>, b: nat)
    requires Inv(parse, same, c) && Enabled(parse, same, c, a) && b in c.peers && c.peers[b].held.Holds?
    ensures
      var c' := Next(parse, same, c, a);
      && c.history <= c'.history
      && b in c'.peers && c'.peers[b].held.Holds? && c.peers[b].held.position <= c'.peers[b].held.position
  {
    assert PeerOk(parse, same, c.history, c.current, c.peers[b]);
  }

  /** The history only grows, and no backup ever goes back in it. */
  lemma {:induction false} BackupsMoveForward<S(!new)>(
    parse: string -> Read<S>, same: (S, S) -> bool, start: S, actions: seq<Action<S>>, more: seq<Action<S>>, b: nat)
    requires Equivalence(same)
    requires b in After(parse, same, start, actions).peers && After(parse, same, start, actions).peers[b].held.Holds?
    ensures
      var c, c' := After(parse, same, start, actions), After(parse, same, start, actions + more);
      && c.history <= c'.history
      && b in c'.peers && c'.peers[b].held.Holds? && c.peers[b].held.position <= c'.peers[b].held.position
    decreases |more|
  {
    if more == [] {
      assert actions + more == actions;
    } else {
      var front := more[..|more| - 1];
      BackupsMoveForward(parse, same, start, actions, front, b);
      RunKeeps(parse, same, start, actions + front);
      assert (actions + more)[..|actions + more| - 1] == actions + front;
      assert (actions + more)[|actions + more| - 1] == more[|more| - 1];
      var c := After(parse, same, start, actions + front);
      if Enabled(parse, same, c, more[|more| - 1]) {
        StepForward(parse, same, c, more[|more| - 1], b);
      }
    }
  }

  // ----- a backup takes over -----

  /**
   * Backup `b` leads from the state it holds.  The other backups keep what they have read, which may be more
   * or less than that; what was still under way from the old leader is lost.
   */
  ghost function TakenOver<S>(c: Cluster<S>, b: nat): Cluster<S>
    requires b in c.peers && c.peers[b].held.Holds?
  {
    Cluster(c.peers[b].held.state, c.history,
            map p | p in c.peers && p != b && c.peers[p].held.Holds? :: Peer([], [], c.peers[p].held))
  }

  lemma SurvivorOk<S(!new)>(parse: string -> Read<S>, same: (S, S) -> bool, c: Cluster<S>, b: nat, p: nat)
    requires Inv(parse, same, c) && b in c.peers && c.peers[b].held.Holds? && p in TakenOver(c, b).peers
    ensures LinkOk(parse, c.history, TakenOver(c, b).peers[p]) && HeldOk(c.history, TakenOver(c, b).peers[p])
  {
    assert PeerOk(parse, same, c.history, c.current, c.peers[p]);
  }

  /** The first update of the new leader puts every survivor back in order. */
  lemma FirstUpdateSettles<S(!new)>(parse: string -> Read<S>, same: (S, S) -> bool, c: Cluster<S>, b: nat, a: Action<S>)
    requires Equivalence(same) && Inv(parse, same, c) && b in c.peers && c.peers[b].held.Holds?
    requires a.Publish? && Enabled(parse, same, TakenOver(c, b), a)
    ensures Inv(parse, same, Next(parse, same, TakenOver(c, b), a))
  {
    var c1 := TakenOver(c, b);
    var c2 := Next(parse, same, c1, a);
    forall p | p in c2.peers ensures PeerOk(parse, same, c2.history, c2.current, c2.peers[p]) {
      assert p in a.texts;
      SurvivorOk(parse, same, c, b, p);
      SentKeeps(parse, same, c1.history, a.state, c1.peers[p], a.texts[p]);
    }
  }

  /** After that, a survivor whose link is drained has the new leader's state. */
  lemma SurvivorsCatchUp<S(!new)>(
    parse: string -> Read<S>, same: (S, S) -> bool, c: Cluster<S>, b: nat, a: Action<S>, more: seq<Action<S>>, p: nat)
    requires Equivalence(same) && Inv(parse, same, c) && b in c.peers && c.peers[b].held.Holds?
    requires a.Publish? && Enabled(parse, same, TakenOver(c, b), a) && p in TakenOver(c, b).peers
    ensures
      var c' := Continue(parse, same, Next(parse, same, TakenOver(c, b), a), more);
      p in c'.peers && (c'.peers[p].link == [] ==> c'.peers[p].held.Holds? && same(c'.peers[p].held.state, c'.current))
  {
    var c1 := Next(parse, same, TakenOver(c, b), a);
    FirstUpdateSettles(parse, same, c, b, a);
    ContinueKeeps(parse, same, c1, more);
    var c' := Continue(parse, same, c1, more);
    assert PeerOk(parse, same, c'.history, c'.current, c'.peers[p]);
  }

  // ----- one leader after another -----

  ghost predicate Whatever<S>(a: S, b: S) {
    true
  }

  lemma WhateverIsEquivalence<S(!new)>()
    ensures Equivalence<S>(Whatever)
  {
  }

  /**
   * The link is in order, whichever leader has used it; and if the present leader has, what it sent last is its
   * state.  The history had `since` entries when it took over.
   */
  ghost predicate InOrder<S(!new)>(parse: string -> Read<S>, c: Cluster<S>, since: nat, p: Peer<S>) {
    && PeerOk(parse, Whatever, c.history, c.current, p)
    && (since <= Latest(p) ==> c.history[Latest(p)] == c.current)
  }

  ghost predicate AllInOrder<S(!new)>(parse: string -> Read<S>, c: Cluster<S>, since: nat) {
    forall b :: b in c.peers ==> InOrder(parse, c, since, c.peers[b])
  }

  lemma PublishInOrder<S(!new)>(parse: string -> Read<S>, c: Cluster<S>, since: nat, s: S, texts: map<nat, string>)
    requires AllInOrder(parse, c, since) && Enabled(parse, Identical, c, Publish(s, texts))
    ensures AllInOrder(parse, Next(parse, Identical, c, Publish(s, texts)), since)
  {
    var c' := Next(parse, Identical, c, Publish(s, texts));
    WhateverIsEquivalence<S>();
    forall b | b in c'.peers ensures InOrder(parse, c', since, c'.peers[b]) {
      assert b in texts && InOrder(parse, c, since, c.peers[b]);
      SentKeeps(parse, Whatever, c.history, s, c.peers[b], texts[b]);
      assert c'.history[|c.history|] == s;
    }
  }

  lemma JoinInOrder<S(!new)>(parse: string -> Read<S>, c: Cluster<S>, since: nat, b: nat, text: string)
    requires AllInOrder(parse, c, since) && Enabled(parse, Identical, c, Join(b, text))
    ensures AllInOrder(parse, Next(parse, Identical, c, Join(b, text)), since)
  {
    var c' := Next(parse, Identical, c, Join(b, text));
    WhateverIsEquivalence<S>();
    forall n | n in c'.peers ensures InOrder(parse, c', since, c'.peers[n]) {
      if n == b {
        NewcomerOk(parse, Whatever, c.history, c.current, text);
      } else {
        assert InOrder(parse, c, since, c.peers[n]);
        OthersKeep(parse, Whatever, c.history, c.current, c.peers[n]);
      }
    }
  }

  lemma ApplyInOrder<S(!new)>(parse: string -> Read<S>, c: Cluster<S>, since: nat, b: nat)
    requires AllInOrder(parse, c, since) && Enabled(parse, Identical, c, Apply(b))
    ensures AllInOrder(parse, Next(parse, Identical, c, Apply(b)), since)
  {
    var c' := Next(parse, Identical, c, Apply(b));
    forall n | n in c'.peers ensures InOrder(parse, c', since, c'.peers[n]) {
      assert InOrder(parse, c, since, c.peers[n]);
      if n == b {
        AppliedKeeps(parse, Whatever, c.history, c.current, c.peers[b]);
      }
    }
  }

  lemma StepInOrder<S(!new)>(parse: string -> Read<S>, c: Cluster<S>, since: nat, a: Action<S>)
    requires AllInOrder(parse, c, since) && Enabled(parse, Identical, c, a)
    ensures AllInOrder(parse, Next(parse, Identical, c, a), since)
  {
    match a
    case Publish(s, texts) => PublishInOrder(parse, c, since, s, texts);
    case Drift(s) =>
    case Join(b, text) => JoinInOrder(parse, c, since, b, text);
    case Apply(b) => ApplyInOrder(parse, c, since, b);
  }

  lemma TakenOverInOrder<S(!new)>(parse: string -> Read<S>, c: Cluster<S>, since: nat, b: nat)
    requires AllInOrder(parse, c, since) && b in c.peers && c.peers[b].held.Holds?
    ensures AllInOrder(parse, TakenOver(c, b), |c.history|)
  {
    forall p | p in TakenOver(c, b).peers ensures InOrder(parse, TakenOver(c, b), |c.history|, TakenOver(c, b).peers[p]) {
      assert InOrder(parse, c, since, c.peers[p]);
    }
  }

  /** What was last sent to each backup was sent by the present leader. */
  ghost predicate AllReached<S>(c: Cluster<S>, since: nat) {
    forall b :: b in c.peers ==> Reached(since, c.peers[b])
  }

  ghost predicate Reached<S>(since: nat, p: Peer<S>) {
    (p.underWay != [] || p.held.Holds?) && since <= Latest(p)
  }

  /** Every backup is reached by an update to all, and stays reached. */
  lemma StepReaches<S(!new)>(parse: string -> Read<S>, c: Cluster<S>, since: nat, a: Action<S>)
    requires AllInOrder(parse, c, since) && Enabled(parse, Identical, c, a) && since <= |c.history|
    requires AllReached(c, since) || a.Publish?
    ensures AllReached(Next(parse, Identical, c, a), since)
  {
    var c' := Next(parse, Identical, c, a);
    forall b | b in c'.peers ensures Reached(since, c'.peers[b]) {
      assert b in c.peers ==> InOrder(parse, c, since, c.peers[b]);
      if a.Apply? && b == a.b {
        AppliedKeeps(parse, Whatever, c.history, c.current, c.peers[b]);
      }
    }
  }
}
