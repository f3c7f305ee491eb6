/** The user table, its text form and the replication put together. */
module ProfileReplication {
  import opened Users
  import opened Profiles
  import opened ProfileCodec
  import InputStream
  import StringUtils
  import StoreCodec
  import Packets
  import Connections
  import Replication

  /** What happens at the leader and on the links. */
  datatype Event =
    | Lead(op: Op, texts: map<nat, string>)  // an operation, with the update for each backup
    | Enter(b: nat, text: string)            // a backup joins, and is sent the table
    | ReadUpdate(b: nat)

  function Ops(events: seq<Event>): seq<Op> {
    if events == [] then []
    else
      var e := events[|events| - 1];
      Ops(events[..|events| - 1]) + if e.Lead? then [e.op] else []
  }

  function Now(rows: seq<seq<string>>, events: seq<Event>): World
    requires NoEmptyRow(rows)
  {
    Run(Started(rows), Ops(events))
  }

  /** Whether the operation ends with the callback. */
  predicate Updates(users: Table, op: Op) {
    match op
    case StartOp(u, _) => u !in users
    case FollowOp(f, u) => Follows(users, f, u)
    case CloseOp(_, _) => false
    case RestartOp => false
  }

  /** The same users with the same sets of followers. */
  ghost predicate SameUsers(a: Table, b: Table) {
    && a.Keys == b.Keys
    && forall u :: u in a ==> SameUser(a[u], b[u])
  }

  ghost predicate SameUser(a: UserData, b: UserData) {
    && a.id == b.id && a.username == b.username && a.sessions == b.sessions
    && forall x :: x in a.followers <==> x in b.followers
  }

  lemma SameUsersIsEquivalence()
    ensures Replication.Equivalence(SameUsers)
  {
    forall x, y, z | SameUsers(x, y) && SameUsers(y, z) ensures SameUsers(x, z) {
      forall u | u in x ensures SameUser(x[u], z[u]) {
        assert SameUser(x[u], y[u]) && SameUser(y[u], z[u]);
      }
    }
  }

  function ActionOf(before: Table, after: Table, e: Event): Replication.Action<Table> {
    match e
    case Lead(op, texts) =>
      if Updates(before, op) then Replication.Publish(Kept(after), texts) else Replication.Drift(Kept(after))
    case Enter(b, text) => Replication.Join(b, text)
    case ReadUpdate(b) => Replication.Apply(b)
  }

  function Actions(rows: seq<seq<string>>, events: seq<Event>): (actions: seq<Replication.Action<Table>>)
    requires NoEmptyRow(rows)
    ensures |actions| == |events|
  {
    if events == [] then []
    else
      var front := events[..|events| - 1];
      Actions(rows, front) + [ActionOf(Now(rows, front).users, Now(rows, events).users, events[|events| - 1])]
  }

  ghost function ClusterAfter(rows: seq<seq<string>>, events: seq<Event>): Replication.Cluster<Table>
    requires NoEmptyRow(rows)
  {
    Replication.After(ParseProfile, SameUsers, Kept(Started(rows).users), Actions(rows, events))
  }

  ghost predicate IsText(users: Table, text: string) {
    SafeTable(users) && Prints(users, text)
  }

  ghost predicate EventOk(c: Replication.Cluster<Table>, before: Table, after: Table, e: Event) {
    match e
    case Lead(op, texts) =>
      && !op.RestartOp?
      && (Updates(before, op) ==>
            texts.Keys == c.peers.Keys && forall b :: b in texts ==> IsText(after, texts[b]))
    case Enter(b, text) => b !in c.peers && IsText(before, text)
    case ReadUpdate(b) => b in c.peers && c.peers[b].link != []
  }

  ghost predicate EventsOk(rows: seq<seq<string>>, events: seq<Event>)
    requires NoEmptyRow(rows)
  {
    events == [] || (EventsOk(rows, events[..|events| - 1]) && LastOk(rows, events))
  }

  ghost predicate LastOk(rows: seq<seq<string>>, events: seq<Event>)
    requires NoEmptyRow(rows) && events != []
  {
    var front := events[..|events| - 1];
    EventOk(ClusterAfter(rows, front), Now(rows, front).users, Now(rows, events).users, events[|events| - 1])
  }

  lemma TextCarries(users: Table, text: string)
    requires IsText(users, text)
    ensures Replication.Carries(ParseProfile, text, Kept(users))
  {
    var order :| StoreCodec.Enumerates(order, users.Keys) && text == ProfileText(users, order);
    ProfileBack(users, order);
  }

  /** The packet made by the callback, as the connection stamps it. */
  function ProfilePacket(text: string, sequenceNumber: int, timestamp: nat): Packets.PacketData {
    Packets.TextPacket(Packets.UPDATE_PROFILE, text, sequenceNumber, timestamp)
  }

  /** An UPDATE_PROFILE packet brings the leader's valid users through a connection. */
  lemma ProfileArrives(users: Table, text: string, sequenceNumber: int, timestamp: nat, rest: string, now: nat)
    requires IsText(users, text) && InputStream.IsInt(sequenceNumber) && timestamp <= InputStream.ULONG_MAX
    requires |Packets.Body(ProfilePacket(text, sequenceNumber, timestamp))| <= InputStream.INT_MAX
    ensures
      var received := Connections.Receiving(Packets.Frame(ProfilePacket(text, sequenceNumber, timestamp)) + rest, now);
      && received.1 == rest && received.0.Received? && received.0.data.kind == Packets.UPDATE_PROFILE
      && ParseProfile(received.0.data.payload).Got? && ParseProfile(received.0.data.payload).value == Kept(users)
  {
    var order :| StoreCodec.Enumerates(order, users.Keys) && text == ProfileText(users, order);
    ProfileTextClean(users, order);
    StringUtils.CStrSame(text);
    ProfileBack(users, order);
    Connections.ReceivingFrame(ProfilePacket(text, sequenceNumber, timestamp), rest, now);
  }

  /** Without a callback at most the order of followers, and sessions, have changed. */
  lemma QuietSame(w: World, op: Op)
    requires !Updates(w.users, op) && !op.RestartOp?
    ensures SameUsers(Kept(w.users), Kept(Step(w, op).users))
  {
    match op
    case StartOp(u, session) => OneUserSame(w.users, u, AddedSession(w.users[u], session));
    case FollowOp(f, u) =>
      if f in w.users && u in w.users {
        SortedSame(w.users[u].followers);
        OneUserSame(w.users, u, AddedFollower(w.users[u], f));
      }
    case CloseOp(u, id) =>
      if u in w.users {
        OneUserSame(w.users, u, RemovedSession(w.users[u], id));
      }
  }

  lemma OneUserSame(users: Table, u: string, data: UserData)
    requires u in users && data.id == users[u].id && data.username == users[u].username
    requires forall x :: x in data.followers <==> x in users[u].followers
    ensures SameUsers(Kept(users), Kept(users[u := data]))
  {
  }

  lemma StepOfOps(rows: seq<seq<string>>, events: seq<Event>)
    requires NoEmptyRow(rows) && events != [] && events[|events| - 1].Lead?
    ensures Now(rows, events) == Step(Now(rows, events[..|events| - 1]), events[|events| - 1].op)
  {
    var ops := Ops(events);
    assert ops[..|ops| - 1] == Ops(events[..|events| - 1]);
  }

  lemma EventEnabled(rows: seq<seq<string>>, events: seq<Event>)
    requires NoEmptyRow(rows) && events != [] && EventsOk(rows, events)
    requires ClusterAfter(rows, events[..|events| - 1]).current == Kept(Now(rows, events[..|events| - 1]).users)
    ensures
      var front := events[..|events| - 1];
      Replication.Enabled(ParseProfile, SameUsers, ClusterAfter(rows, front),
                          ActionOf(Now(rows, front).users, Now(rows, events).users, events[|events| - 1]))
  {
    var front, e := events[..|events| - 1], events[|events| - 1];
    var before, after := Now(rows, front), Now(rows, events);
    match e
    case Lead(op, texts) =>
      StepOfOps(rows, events);
      if Updates(before.users, op) {
        forall b | b in texts ensures Replication.Carries(ParseProfile, texts[b], Kept(after.users)) {
          TextCarries(after.users, texts[b]);
        }
      } else {
        QuietSame(before, op);
      }
    case Enter(b, text) => TextCarries(before.users, text);
    case ReadUpdate(b) =>
      SameUsersIsEquivalence();
      Replication.UpdatesReadable(ParseProfile, SameUsers, Kept(Started(rows).users), Actions(rows, front), b);
  }

  /** The cluster takes the event's action. */
  lemma ClusterStep(rows: seq<seq<string>>, events: seq<Event>)
    requires NoEmptyRow(rows) && events != []
    ensures
      var front := events[..|events| - 1];
      var c, a := ClusterAfter(rows, front), ActionOf(Now(rows, front).users, Now(rows, events).users, events[|events| - 1]);
      Replication.Enabled(ParseProfile, SameUsers, c, a) ==>
      && ClusterAfter(rows, events).current == Replication.StateAfter(c, a)
      && ClusterAfter(rows, events).history == c.history + Replication.Recorded(c, a)
  {
    var front := events[..|events| - 1];
    var c, a := ClusterAfter(rows, front), ActionOf(Now(rows, front).users, Now(rows, events).users, events[|events| - 1]);
    assert Actions(rows, events)[..|events| - 1] == Actions(rows, front);
    if Replication.Enabled(ParseProfile, SameUsers, c, a) {
      Replication.NextShape(ParseProfile, SameUsers, c, a);
    }
  }

  lemma ActionState(c: Replication.Cluster<Table>, before: Table, after: Table, e: Event)
    requires c.current == Kept(before) && (!e.Lead? ==> after == before)
    ensures Replication.StateAfter(c, ActionOf(before, after, e)) == Kept(after)
  {
  }

  lemma OnlyLeadMatters(rows: seq<seq<string>>, events: seq<Event>)
    requires NoEmptyRow(rows) && events != [] && !events[|events| - 1].Lead?
    ensures Now(rows, events) == Now(rows, events[..|events| - 1])
  {
    assert Ops(events) == Ops(events[..|events| - 1]) + [] == Ops(events[..|events| - 1]);
  }

  lemma EventTracks(rows: seq<seq<string>>, events: seq<Event>)
    requires NoEmptyRow(rows) && events != [] && EventsOk(rows, events)
    requires ClusterAfter(rows, events[..|events| - 1]).current == Kept(Now(rows, events[..|events| - 1]).users)
    ensures ClusterAfter(rows, events).current == Kept(Now(rows, events).users)
  {
    var front, e := events[..|events| - 1], events[|events| - 1];
    EventEnabled(rows, events);
    ClusterStep(rows, events);
    if !e.Lead? {
      OnlyLeadMatters(rows, events);
    }
    ActionState(ClusterAfter(rows, front), Now(rows, front).users, Now(rows, events).users, e);
  }

  /** The cluster's current state is the part of the leader's table that is replicated. */
  lemma {:induction false} EventsTrack(rows: seq<seq<string>>, events: seq<Event>)
    requires NoEmptyRow(rows) && EventsOk(rows, events)
    ensures ClusterAfter(rows, events).current == Kept(Now(rows, events).users)
  {
    if events != [] {
      EventsTrack(rows, events[..|events| - 1]);
      EventTracks(rows, events);
    }
  }

  /** The replicated part of the leader's table after each of the events so far. */
  ghost function Past(rows: seq<seq<string>>, events: seq<Event>): seq<Table>
    requires NoEmptyRow(rows)
  {
    (if events == [] then [] else Past(rows, events[..|events| - 1])) + [Kept(Now(rows, events).users)]
  }

  lemma HistoryGrows(rows: seq<seq<string>>, events: seq<Event>)
    requires NoEmptyRow(rows) && events != [] && EventsOk(rows, events)
    ensures
      var c, c' := ClusterAfter(rows, events[..|events| - 1]), ClusterAfter(rows, events);
      c'.history == c.history || c'.history == c.history + [Kept(Now(rows, events).users)]
  {
    var front := events[..|events| - 1];
    EventsTrack(rows, front);
    EventsTrack(rows, events);
    EventEnabled(rows, events);
    ClusterStep(rows, events);
  }

  /** Everything that was ever sent was the leader's table at some point. */
  lemma {:induction false} HistoryIsPast(rows: seq<seq<string>>, events: seq<Event>, i: nat)
    requires NoEmptyRow(rows) && EventsOk(rows, events) && i < |ClusterAfter(rows, events).history|
    ensures ClusterAfter(rows, events).history[i] in Past(rows, events)
  {
    var front := events[..|events| - 1];
    HistoryGrows(rows, events);
    if i < |ClusterAfter(rows, front).history| {
      HistoryIsPast(rows, front, i);
    }
  }

  /** A backup holds exactly what the leader replicated of its users at some point. */
  lemma BackupHoldsPast(rows: seq<seq<string>>, events: seq<Event>, b: nat)
    requires NoEmptyRow(rows) && EventsOk(rows, events)
    requires b in ClusterAfter(rows, events).peers && ClusterAfter(rows, events).peers[b].held.Holds?
    ensures ClusterAfter(rows, events).peers[b].held.state in Past(rows, events)
  {
    SameUsersIsEquivalence();
    Replication.BackupsFollow(ParseProfile, SameUsers, Kept(Started(rows).users), Actions(rows, events), b);
    HistoryIsPast(rows, events, ClusterAfter(rows, events).peers[b].held.position);
  }

  /** Once its link is drained, a backup has the leader's valid users with the same sets of followers. */
  lemma BackupAgrees(rows: seq<seq<string>>, events: seq<Event>, b: nat)
    requires NoEmptyRow(rows) && EventsOk(rows, events)
    requires b in ClusterAfter(rows, events).peers && ClusterAfter(rows, events).peers[b].link == []
    ensures
      var p := ClusterAfter(rows, events).peers[b];
      p.held.Holds? && SameUsers(p.held.state, Kept(Now(rows, events).users))
  {
    SameUsersIsEquivalence();
    EventsTrack(rows, events);
    Replication.BackupsFollow(ParseProfile, SameUsers, Kept(Started(rows).users), Actions(rows, events), b);
  }

  // ----- the order of the followers -----

  /** A follow that is refused leaves the user's followers as they are. */
  predicate KeepsOrder(users: Table, f: string, u: string) {
    f in users && u in users && !Follows(users, f, u) ==>
      users[u].id <= 0 || f == users[u].username || Sorted(users[u].followers) == users[u].followers
  }

  /** What is replicated stays the same on a refused follow exactly when the list is sorted, or not looked at. */
  lemma RefusedFollowExactly(users: Table, f: string, u: string)
    requires f in users && u in users && !Follows(users, f, u)
    ensures Kept(Follow(users, f, u)) == Kept(users) <==> KeepsOrder(users, f, u)
  {
    var after := Follow(users, f, u);
    assert after == users[u := AddedFollower(users[u], f)];
    if users[u].id > 0 {
      assert Kept(after)[u].followers == after[u].followers && Kept(users)[u].followers == users[u].followers;
    }
    if KeepsOrder(users, f, u) {
      assert forall v :: v in users ==> after[v].(sessions := []) == users[v].(sessions := []) || users[v].id <= 0;
    }
  }

  /** An input that changes the order: the backups keep the old one. */
  lemma RefusedFollowSorts()
    ensures
      var users := map["u" := UserData(1, "u", ["b", "a"], []), "a" := UserData(2, "a", [], [])];
      && !Follows(users, "a", "u") && Kept(Follow(users, "a", "u")) != Kept(users)
      && SameUsers(Kept(Follow(users, "a", "u")), Kept(users))
  {
    var users := map["u" := UserData(1, "u", ["b", "a"], []), "a" := UserData(2, "a", [], [])];
    var list := ["b", "a"];
    assert list[1..] == ["a"] && ["a"][1..] == [];
    assert Sorted(["a"]) == ["a"];
    assert Less("a", "b") && !Less("b", "a");
    assert Sorted(list) == ["a", "b"];
    assert list[0] != ["a", "b"][0];
    assert "a" == list[1];
    RefusedFollowExactly(users, "a", "u");
    SortedSame(list);
    OneUserSame(users, "u", AddedFollower(users["u"], "a"));
    var after := Follow(users, "a", "u");
    forall v | v in Kept(users) ensures SameUser(Kept(after)[v], Kept(users)[v]) {
    }
  }

  predicate OpKeepsOrder(users: Table, op: Op) {
    op.FollowOp? ==> KeepsOrder(users, op.follower, op.userToFollow)
  }

  /** No refused follow of the run sorts a list. */
  predicate OrderKept(rows: seq<seq<string>>, events: seq<Event>)
    requires NoEmptyRow(rows)
  {
    events == [] ||
      var front, e := events[..|events| - 1], events[|events| - 1];
      OrderKept(rows, front) && (e.Lead? ==> OpKeepsOrder(Now(rows, front).users, e.op))
  }

  lemma QuietKeeps(w: World, op: Op)
    requires !Updates(w.users, op) && !op.RestartOp? && OpKeepsOrder(w.users, op)
    ensures Kept(Step(w, op).users) == Kept(w.users)
  {
    match op
    case StartOp(u, session) =>
    case FollowOp(f, u) =>
      if f in w.users && u in w.users {
        RefusedFollowExactly(w.users, f, u);
      }
    case CloseOp(u, id) =>
  }

  lemma {:induction false} OrderKeptIsNoDrift(rows: seq<seq<string>>, events: seq<Event>)
    requires NoEmptyRow(rows) && EventsOk(rows, events) && OrderKept(rows, events)
    ensures Replication.NoDrift(ParseProfile, SameUsers, Replication.Initial(Kept(Started(rows).users)), Actions(rows, events))
  {
    if events != [] {
      var front, e := events[..|events| - 1], events[|events| - 1];
      OrderKeptIsNoDrift(rows, front);
      EventsTrack(rows, front);
      assert Actions(rows, events)[..|events| - 1] == Actions(rows, front);
      if e.Lead? && !Updates(Now(rows, front).users, e.op) {
        StepOfOps(rows, events);
        QuietKeeps(Now(rows, front), e.op);
      }
    }
  }

  /** Then a drained backup has the leader's valid users, with the followers in the leader's order. */
  lemma BackupEquals(rows: seq<seq<string>>, events: seq<Event>, b: nat)
    requires NoEmptyRow(rows) && EventsOk(rows, events) && OrderKept(rows, events)
    requires b in ClusterAfter(rows, events).peers && ClusterAfter(rows, events).peers[b].link == []
    ensures
      var p := ClusterAfter(rows, events).peers[b];
      p.held.Holds? && p.held.state == Kept(Now(rows, events).users)
  {
    SameUsersIsEquivalence();
    EventsTrack(rows, events);
    OrderKeptIsNoDrift(rows, events);
    Replication.BackupsEqual(ParseProfile, SameUsers, Kept(Started(rows).users), Actions(rows, events), b);
  }
}
