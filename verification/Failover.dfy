/**
 * The notification store, its text form and the replication put together: what a backup that takes over
 * can serve.
 */
module Failover {
  import opened InputStream
  import opened NotificationStore
  import opened Mailboxes
  import opened MailboxRuns
  import opened StoreCodec
  import opened StringUtils
  import Packets
  import Connections
  import Replication

  /** What happens at the leader, after it has loaded its users, and on the links. */
  datatype Event =
    | Lead(op: Op, texts: map<nat, string>)  // an operation, with the update for each backup
    | Enter(b: nat, text: string)            // a backup joins, and is sent the store
    | ReadUpdate(b: nat)
    | TakeOver(b: nat)                       // the leader is gone, and a backup leads from what it holds

  /**
   * A leader with its backups.  `ops` is what led to its store: for a leader that took over, the operations
   * behind the update that it held, the failover, and its own operations.
   */
  datatype Reign = Reign(
    cluster: Replication.Cluster<Store>,
    ops: seq<Op>,
    origins: seq<seq<Op>>,    // the operations behind each entry of the history
    since: nat)               // the length of the history when the leader took over

  /** Whether the operation ends with the callback. */
  predicate Updates(st: Store, op: Op) {
    match op
    case SendOp(sender, _, _, _) => sender in st.notifications
    case SubscribeOp(_, _) => true
    case UnsubscribeOp(_, _) => true
    case LoadUsersOp(_) => false
    case FailoverOp => false
  }

  function ActionOf(before: Store, after: Store, e: Event): Replication.Action<Store>
    requires !e.TakeOver?
  {
    match e
    case Lead(op, texts) =>
      if Updates(before, op) then Replication.Publish(Replicated(after), texts) else Replication.Drift(Replicated(after))
    case Enter(b, text) => Replication.Join(b, text)
    case ReadUpdate(b) => Replication.Apply(b)
  }

  /** The leader's operations after the event. */
  function OpsAfter(ops: seq<Op>, e: Event): seq<Op> {
    if e.Lead? then ops + [e.op] else ops
  }

  /** The operations behind what a backup holds. */
  ghost function Origin(r: Reign, b: nat): seq<Op>
    requires b in r.cluster.peers && r.cluster.peers[b].held.Holds?
  {
    var position := r.cluster.peers[b].held.position;
    if position < |r.origins| then r.origins[position] else r.ops
  }

  /** The cluster after an action; one that cannot happen has no effect. */
  ghost function Acted(c: Replication.Cluster<Store>, a: Replication.Action<Store>): Replication.Cluster<Store> {
    if Replication.Enabled(ParseStore, Replication.Identical, c, a) then Replication.Next(ParseStore, Replication.Identical, c, a) else c
  }

  ghost function Next(r: Reign, e: Event): Reign
    requires EventOk(r, e)
  {
    if e.TakeOver? then
      Reign(Replication.TakenOver(r.cluster, e.b), Origin(r, e.b) + [FailoverOp], r.origins, |r.origins|)
    else
      var ops := OpsAfter(r.ops, e);
      var a := ActionOf(Run(r.ops).store, Run(ops).store, e);
      Reign(Acted(r.cluster, a), ops, r.origins + if a.Publish? || a.Join? then [ops] else [], r.since)
  }

  /** The text is what `serialize` prints for the store, in some order of its maps. */
  ghost predicate IsText(st: Store, text: string) {
    SafeStore(st) && Prints(st, text)
  }

  /** A leader prints its store for every backup, and its stores stay within what the text can carry. */
  ghost predicate EventOk(r: Reign, e: Event) {
    match e
    case Lead(op, texts) =>
      && !op.LoadUsersOp? && !op.FailoverOp?
      && (Updates(Run(r.ops).store, op) ==>
            texts.Keys == r.cluster.peers.Keys && forall b :: b in texts ==> IsText(Run(r.ops + [op]).store, texts[b]))
    case Enter(b, text) => b !in r.cluster.peers && IsText(Run(r.ops).store, text)
    case ReadUpdate(b) => b in r.cluster.peers && r.cluster.peers[b].link != []
    case TakeOver(b) => b in r.cluster.peers && r.cluster.peers[b].held.Holds?
  }

  /** The first leader loads its users. */
  function FirstReign(users: seq<string>): Reign {
    Reign(Replication.Initial(Replicated(Run([LoadUsersOp(users)]).store)), [LoadUsersOp(users)], [], 0)
  }

  /** Every event of the run can happen, from the first leader on. */
  ghost predicate EventsOk(users: seq<string>, events: seq<Event>) {
    events == [] ||
      (EventsOk(users, events[..|events| - 1])
       && EventOk(After(users, events[..|events| - 1]), events[|events| - 1]))
  }

  ghost function After(users: seq<string>, events: seq<Event>): Reign {
    if events == [] then FirstReign(users)
    else
      var r := After(users, events[..|events| - 1]);
      if EventOk(r, events[|events| - 1]) then Next(r, events[|events| - 1]) else r
  }

  lemma TextCarries(st: Store, text: string)
    requires IsText(st, text)
    ensures Replication.Carries(ParseStore, text, Replicated(st))
  {
    var order1, order2 :|
      && Enumerates(order1, st.notifications.Keys) && Enumerates(order2, st.queues.Keys)
      && text == PrintStore(st, order1, order2);
    StoreBack(st, order1, order2);
  }

  /** An UPDATE_NOTIFICATION packet brings the leader's replicated store through a connection. */
  lemma UpdateArrives(st: Store, text: string, sequenceNumber: int, timestamp: nat, rest: string, now: nat)
    requires IsText(st, text) && IsInt(sequenceNumber) && timestamp <= ULONG_MAX
    requires |Packets.Body(UpdatePacket(text, sequenceNumber, timestamp))| <= INT_MAX
    ensures
      var received := Connections.Receiving(Packets.Frame(UpdatePacket(text, sequenceNumber, timestamp)) + rest, now);
      && received.1 == rest && received.0.Received? && received.0.data.kind == Packets.UPDATE_NOTIFICATION
      && ParseStore(received.0.data.payload) == Got(Replicated(st), "")
  {
    var order1, order2 :|
      && Enumerates(order1, st.notifications.Keys) && Enumerates(order2, st.queues.Keys)
      && text == PrintStore(st, order1, order2);
    StoreTextClean(st, order1, order2);
    CStrSame(text);
    StoreBack(st, order1, order2);
    Connections.ReceivingFrame(UpdatePacket(text, sequenceNumber, timestamp), rest, now);
  }

  /** The packet made by the callback, as the connection stamps it. */
  function UpdatePacket(text: string, sequenceNumber: int, timestamp: nat): Packets.PacketData {
    Packets.TextPacket(Packets.UPDATE_NOTIFICATION, text, sequenceNumber, timestamp)
  }

  /** Without a callback the replicated part of the store is as before. */
  lemma QuietUnchanged(w: World, op: Op)
    requires !Updates(w.store, op) && !op.LoadUsersOp? && !op.FailoverOp?
    ensures Step(w, op).store == w.store
  {
  }

  // ----- the invariant -----

  /** Every state that was ever sent was some leader's; those of this leader come from a part of its operations. */
  ghost predicate Origins(r: Reign) {
    && |r.origins| == |r.cluster.history| && r.since <= |r.origins|
    && r.cluster.current == Replicated(Run(r.ops).store)
    && (forall i :: 0 <= i < |r.origins| ==> r.cluster.history[i] == Replicated(Run(r.origins[i]).store))
    && forall i :: r.since <= i < |r.origins| ==> r.origins[i] <= r.ops
  }

  ghost predicate Inv(r: Reign) {
    Origins(r) && Replication.AllInOrder(ParseStore, r.cluster, r.since)
  }

  /** The event's action can happen. */
  lemma EventEnabled(r: Reign, e: Event)
    requires Inv(r) && EventOk(r, e) && !e.TakeOver?
    ensures
      Replication.Enabled(ParseStore, Replication.Identical, r.cluster, ActionOf(Run(r.ops).store, Run(OpsAfter(r.ops, e)).store, e))
  {
    match e
    case Lead(op, texts) =>
      if Updates(Run(r.ops).store, op) {
        forall b | b in texts ensures Replication.Carries(ParseStore, texts[b], Replicated(Run(r.ops + [op]).store)) {
          TextCarries(Run(r.ops + [op]).store, texts[b]);
        }
      } else {
        RunOneMore(r.ops, op);
        QuietUnchanged(Run(r.ops), op);
      }
    case Enter(b, text) => TextCarries(Run(r.ops).store, text);
    case ReadUpdate(b) =>
      assert Replication.InOrder(ParseStore, r.cluster, r.since, r.cluster.peers[b]);
      Replication.AppliedKeeps(
        ParseStore, Replication.Whatever, r.cluster.history, r.cluster.current, r.cluster.peers[b]);
  }

  /** The state that an action leaves is the leader's. */
  lemma ActionState(c: Replication.Cluster<Store>, before: Store, after: Store, e: Event)
    requires c.current == Replicated(before) && !e.TakeOver? && (!e.Lead? ==> after == before)
    ensures Replication.StateAfter(c, ActionOf(before, after, e)) == Replicated(after)
  {
  }

  lemma OriginsGrow(r: Reign, r': Reign)
    requires Origins(r) && r.ops <= r'.ops && r'.since == r.since
    requires r'.cluster.current == Replicated(Run(r'.ops).store)
    requires
      || (r'.cluster.history == r.cluster.history && r'.origins == r.origins)
      || (r'.cluster.history == r.cluster.history + [r'.cluster.current] && r'.origins == r.origins + [r'.ops])
    ensures Origins(r')
  {
    forall i | r.since <= i < |r.origins| ensures r.origins[i] <= r'.ops {
      assert r.origins[i] <= r.ops <= r'.ops;
    }
  }

  lemma EventKeepsOrigins(r: Reign, e: Event)
    requires Inv(r) && EventOk(r, e) && !e.TakeOver?
    ensures Origins(Next(r, e))
  {
    var before, after := Run(r.ops).store, Run(OpsAfter(r.ops, e)).store;
    EventEnabled(r, e);
    Replication.NextShape(ParseStore, Replication.Identical, r.cluster, ActionOf(before, after, e));
    ActionState(r.cluster, before, after, e);
    OriginsGrow(r, Next(r, e));
  }

  /** A failover changes nothing that is replicated. */
  lemma FailoverKeepsState(ops: seq<Op>)
    ensures Replicated(Run(ops + [FailoverOp]).store) == Replicated(Run(ops).store)
  {
    RunOneMore(ops, FailoverOp);
  }

  lemma TakeOverKeeps(r: Reign, b: nat)
    requires Inv(r) && EventOk(r, TakeOver(b))
    ensures Inv(Next(r, TakeOver(b)))
  {
    assert Replication.InOrder(ParseStore, r.cluster, r.since, r.cluster.peers[b]);
    FailoverKeepsState(Origin(r, b));
    Replication.TakenOverInOrder(ParseStore, r.cluster, r.since, b);
  }

  lemma EventKeeps(r: Reign, e: Event)
    requires Inv(r) && EventOk(r, e)
    ensures Inv(Next(r, e))
  {
    if e.TakeOver? {
      TakeOverKeeps(r, e.b);
    } else {
      EventKeepsOrigins(r, e);
      EventEnabled(r, e);
      Replication.StepInOrder(ParseStore, r.cluster, r.since, ActionOf(Run(r.ops).store, Run(OpsAfter(r.ops, e)).store, e));
    }
  }

  lemma {:induction false} RunKeeps(users: seq<string>, events: seq<Event>)
    ensures Inv(After(users, events))
  {
    if events != [] {
      var r := After(users, events[..|events| - 1]);
      RunKeeps(users, events[..|events| - 1]);
      if EventOk(r, events[|events| - 1]) {
        EventKeeps(r, events[|events| - 1]);
      }
    }
  }

  // ----- the theorems -----

  /**
   * Whatever a backup holds is what some leader replicated.  If that was the present leader, it was after a
   * part of its operations from the start on, and after all of them once the link is drained.
   */
  lemma BackupHoldsPrefix(users: seq<string>, events: seq<Event>, b: nat)
    requires EventsOk(users, events)
    requires b in After(users, events).cluster.peers && After(users, events).cluster.peers[b].held.Holds?
    ensures
      var r := After(users, events);
      var p := r.cluster.peers[b];
      && p.held.position < |r.origins| && p.held.state == Replicated(Run(Origin(r, b)).store)
      && (r.since <= p.held.position ==>
            && Origin(r, b) <= r.ops
            && (p.link == [] ==> p.held.state == Replicated(Run(r.ops).store)))
  {
    var r := After(users, events);
    RunKeeps(users, events);
    assert Replication.InOrder(ParseStore, r.cluster, r.since, r.cluster.peers[b]);
  }

  /** The event is an operation of the leader that ends with an update to every backup. */
  predicate Publishes(r: Reign, e: Event) {
    e.Lead? && Updates(Run(r.ops).store, e.op)
  }

  lemma EventReaches(r: Reign, e: Event)
    requires Inv(r) && EventOk(r, e) && !e.TakeOver?
    requires Replication.AllReached(r.cluster, r.since) || Publishes(r, e)
    ensures Replication.AllReached(Next(r, e).cluster, r.since)
  {
    EventEnabled(r, e);
    Replication.StepReaches(ParseStore, r.cluster, r.since, ActionOf(Run(r.ops).store, Run(OpsAfter(r.ops, e)).store, e));
  }

  lemma {:induction false} SentToAll(users: seq<string>, events: seq<Event>, more: seq<Event>)
    requires EventsOk(users, events + more) && events != []
    requires Publishes(After(users, events[..|events| - 1]), events[|events| - 1])
    requires forall i :: 0 <= i < |more| ==> !more[i].TakeOver?
    ensures Replication.AllReached(After(users, events + more).cluster, After(users, events + more).since)
    decreases |more|
  {
    var all := events + more;
    var front := all[..|all| - 1];
    RunKeeps(users, front);
    if more == [] {
      assert front == events[..|events| - 1] && all == events;
    } else {
      assert front == events + more[..|more| - 1];
      SentToAll(users, events, more[..|more| - 1]);
    }
    EventReaches(After(users, front), all[|all| - 1]);
  }

  /** Once a leader has replicated an operation, every drained backup has its state, as long as it leads. */
  lemma DrainedBackupsAgree(users: seq<string>, events: seq<Event>, more: seq<Event>, b: nat)
    requires EventsOk(users, events + more) && events != []
    requires Publishes(After(users, events[..|events| - 1]), events[|events| - 1])
    requires forall i :: 0 <= i < |more| ==> !more[i].TakeOver?
    requires
      var c := After(users, events + more).cluster;
      b in c.peers && c.peers[b].link == []
    ensures
      var r := After(users, events + more);
      r.cluster.peers[b].held.Holds? && r.cluster.peers[b].held.state == Replicated(Run(r.ops).store)
  {
    var r := After(users, events + more);
    RunKeeps(users, events + more);
    SentToAll(users, events, more);
    assert Replication.InOrder(ParseStore, r.cluster, r.since, r.cluster.peers[b]);
    assert Replication.Reached(r.since, r.cluster.peers[b]);
  }

  /**
   * When a backup takes over and a user subscribes there, the session gets exactly what had been sent to the
   * user within the operations behind the backup's state and not yet delivered, each once and in order.
   */
  lemma BackupServes(users: seq<string>, events: seq<Event>, b: nat, u: string, sessionId: nat) returns (ops: seq<Op>)
    requires EventsOk(users, events)
    requires b in After(users, events).cluster.peers && After(users, events).cluster.peers[b].held.Holds?
    requires u in After(users, events).cluster.peers[b].held.state.queues
    requires IdsFree(After(users, events).ops) && IdsFree(Origin(After(users, events), b))
    ensures
      var r := After(users, events);
      var p := r.cluster.peers[b];
      ops == if r.since <= p.held.position && p.link == [] then r.ops else Origin(r, b)
    ensures
      var w, st := Run(ops), Subscribe(After(users, events).cluster.peers[b].held.state, u, sessionId, []);
      && u in st.queues && Key(sessionId) in st.queues[u].subscribers && st.queues[u].pending == []
      && u in w.sent && u in w.delivered && |w.delivered[u]| <= |w.sent[u]|
      && Contents(st.queues[u].subscribers[Key(sessionId)]) == w.sent[u][|w.delivered[u]|..]
  {
    var r := After(users, events);
    var p := r.cluster.peers[b];
    BackupHoldsPrefix(users, events, b);
    ops := if r.since <= p.held.position && p.link == [] then r.ops else Origin(r, b);
    ServedAfterFailover(ops, u, sessionId);
  }

  lemma ServedAfterFailover(ops: seq<Op>, u: string, sessionId: nat)
    requires IdsFree(ops) && u in Replicated(Run(ops).store).queues
    ensures
      var st, w := Subscribe(Replicated(Run(ops).store), u, sessionId, []), Run(ops);
      && u in st.queues && Key(sessionId) in st.queues[u].subscribers && st.queues[u].pending == []
      && u in w.sent && u in w.delivered && |w.delivered[u]| <= |w.sent[u]|
      && Contents(st.queues[u].subscribers[Key(sessionId)]) == w.sent[u][|w.delivered[u]|..]
  {
    FailoverServes(ops, u, sessionId);
    var failed := ops + [FailoverOp];
    var served := failed + [SubscribeOp(u, sessionId)];
    FreeWithout(ops, FailoverOp);
    FreeWithout(failed, SubscribeOp(u, sessionId));
    assert Run(served).store == Subscribe(Replicated(Run(ops).store), u, sessionId, []);
    SessionStreams(served, u, Key(sessionId));
  }
}
