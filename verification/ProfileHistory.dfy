/**
 * What the user table ought to hold, told from the file at the start and the operations alone: who is registered,
 * in which order, under which id, followed by whom, with which sessions.  Every run leaves exactly that table.
 */
module ProfileHistory {
  import opened Sequences
  import opened CsvText
  import opened Users
  import opened Profiles

  // ----- the history -----

  /** Who was in the file, then everybody else by their first session. */
  function Names(rows: seq<seq<string>>, ops: seq<Op>): seq<string>
    requires NoEmptyRow(rows)
  {
    if ops == [] then seq(|rows|, k requires 0 <= k < |rows| => rows[k][0])
    else
      var names, op := Names(rows, ops[..|ops| - 1]), ops[|ops| - 1];
      if op.StartOp? && op.username !in names then names + [op.username] else names
  }

  function Position(names: seq<string>, u: string): nat {
    if names == [] || names[0] == u then 0 else 1 + Position(names[1..], u)
  }

  /** A new user gets the number of users so far; one that is loaded counts itself. */
  function IdOf(rows: seq<seq<string>>, ops: seq<Op>, u: string): int
    requires NoEmptyRow(rows)
  {
    if ops == [] || ops[|ops| - 1].RestartOp? then Position(Names(rows, ops), u) + 1
    else
      var front, op := ops[..|ops| - 1], ops[|ops| - 1];
      if op.StartOp? && op.username == u && u !in Names(rows, front) then |Names(rows, front)|
      else IdOf(rows, front, u)
  }

  /** The follower is in the user's row of the file, or has followed while both were registered. */
  ghost predicate FollowedBy(rows: seq<seq<string>>, ops: seq<Op>, u: string, follower: string)
    requires NoEmptyRow(rows)
  {
    if ops == [] then exists k :: 0 <= k < |rows| && rows[k][0] == u && follower in rows[k][1..]
    else
      var front, op := ops[..|ops| - 1], ops[|ops| - 1];
      || FollowedBy(rows, front, u, follower)
      || (op == FollowOp(follower, u) && u != follower && u in Names(rows, front) && follower in Names(rows, front))
  }

  /** The first session with this id is gone. */
  function Closed(sessions: seq<Session>, id: nat): seq<Session> {
    if sessions == [] then []
    else if sessions[0].threadId == id then sessions[1..]
    else [sessions[0]] + Closed(sessions[1..], id)
  }

  /** The sessions that have started and not closed since the last restart; a third one does not start. */
  function LiveSessions(ops: seq<Op>, u: string): seq<Session> {
    if ops == [] then []
    else
      var live := LiveSessions(ops[..|ops| - 1], u);
      match ops[|ops| - 1]
      case StartOp(v, session) => if u == v && |live| < 2 then live + [session] else live
      case CloseOp(v, id) => if u == v then Closed(live, id) else live
      case FollowOp(_, _) => live
      case RestartOp => []
  }

  /** What the history says of one user. */
  ghost predicate Told(rows: seq<seq<string>>, ops: seq<Op>, u: string, data: UserData)
    requires NoEmptyRow(rows)
  {
    && data.username == u
    && data.id == IdOf(rows, ops, u)
    && data.sessions == LiveSessions(ops, u)
    && forall x :: x in data.followers <==> FollowedBy(rows, ops, u, x)
  }

  // ----- who is registered -----

  predicate Heads(rows: seq<seq<string>>, names: seq<string>) {
    |rows| == |names| && forall k :: 0 <= k < |rows| ==> rows[k] != [] && rows[k][0] == names[k]
  }

  lemma MatchingHeads(users: Table, rows: seq<seq<string>>, names: seq<string>)
    requires GoodRows(rows) && Matching(users, rows) && Heads(rows, names)
    ensures NoRepeats(names) && forall u :: u in users <==> u in names
  {
    forall u ensures u in users <==> u in names {
      if u in users {
        assert HasRow(rows, u);
      }
      if u in names {
        var k :| 0 <= k < |names| && names[k] == u;
        assert InTable(users, rows[k]);
      }
    }
  }

  lemma FollowHeads(rows: seq<seq<string>>, names: seq<string>, user: string, follower: string)
    requires GoodRows(rows) && Heads(rows, names)
    ensures Heads(ExtendedAll(rows, 0, user, [follower]), names)
  {
    forall k | 0 <= k < |rows|
      ensures ExtendedAll(rows, 0, user, [follower])[k] != [] && ExtendedAll(rows, 0, user, [follower])[k][0] == names[k]
    {
      ExtendedRow(rows, user, follower, k);
    }
  }

  lemma StepHeads(w: World, op: Op, names: seq<string>)
    requires Inv(w) && Heads(w.rows, names)
    ensures Heads(Step(w, op).rows, if op.StartOp? && op.username !in names then names + [op.username] else names)
  {
    MatchingHeads(w.users, w.rows, names);
    if op.FollowOp? {
      FollowHeads(w.rows, names, op.userToFollow, op.follower);
    }
  }

  /** The rows of the file are in the order of registration. */
  lemma {:induction false} RowsAre(rows: seq<seq<string>>, ops: seq<Op>)
    requires NoEmptyRow(rows) && GoodRows(rows)
    requires forall i :: 0 <= i < |ops| ==> SafeOp(ops[i])
    ensures Heads(Run(Started(rows), ops).rows, Names(rows, ops))
  {
    if ops != [] {
      RowsAre(rows, ops[..|ops| - 1]);
      RunKeepsInv(rows, ops[..|ops| - 1]);
      StepHeads(Run(Started(rows), ops[..|ops| - 1]), ops[|ops| - 1], Names(rows, ops[..|ops| - 1]));
    }
  }

  lemma {:induction false} CountOfDistinct(s: seq<string>, keys: set<string>)
    requires NoRepeats(s) && forall u :: u in keys <==> u in s
    ensures |keys| == |s|
  {
    if s == [] {
      assert keys == {};
    } else {
      var front, last := s[..|s| - 1], s[|s| - 1];
      assert forall u :: u in s <==> u in front || u == last;
      CountOfDistinct(front, keys - {last});
    }
  }

  /** Exactly the registered users are in the table. */
  lemma RegisteredAre(rows: seq<seq<string>>, ops: seq<Op>)
    requires NoEmptyRow(rows) && GoodRows(rows)
    requires forall i :: 0 <= i < |ops| ==> SafeOp(ops[i])
    ensures NoRepeats(Names(rows, ops))
    ensures forall u :: u in Run(Started(rows), ops).users <==> u in Names(rows, ops)
    ensures |Run(Started(rows), ops).users| == |Names(rows, ops)|
  {
    var w := Run(Started(rows), ops);
    RowsAre(rows, ops);
    RunKeepsInv(rows, ops);
    MatchingHeads(w.users, w.rows, Names(rows, ops));
    CountOfDistinct(Names(rows, ops), w.users.Keys);
    assert |w.users.Keys| == |w.users|;
  }

  // ----- the users after a start -----

  lemma {:induction false} PositionIs(names: seq<string>, k: nat)
    requires NoRepeats(names) && k < |names|
    ensures Position(names, names[k]) == k
  {
    if k > 0 {
      PositionIs(names[1..], k - 1);
    }
  }

  lemma {:induction false} LoadedIds(rows: seq<seq<string>>, k: nat)
    requires NoEmptyRow(rows) && GoodRows(rows) && k < |rows|
    ensures rows[k][0] in Loaded(rows) && Loaded(rows)[rows[k][0]].id == k + 1
  {
    LoadedLast(rows);
    if k < |rows| - 1 {
      LoadedIds(rows[..|rows| - 1], k);
    }
  }

  /** A loaded user is numbered by its place. */
  lemma LoadedPosition(rows: seq<seq<string>>, names: seq<string>, u: string)
    requires NoEmptyRow(rows) && GoodRows(rows) && Heads(rows, names) && u in Loaded(rows)
    ensures Loaded(rows)[u].id == Position(names, u) + 1
  {
    LoadedMatches(rows);
    MatchingHeads(Loaded(rows), rows, names);
    var k :| 0 <= k < |names| && names[k] == u;
    PositionIs(names, k);
    LoadedIds(rows, k);
  }

  lemma LoadedTold(rows: seq<seq<string>>, u: string)
    requires NoEmptyRow(rows) && GoodRows(rows) && u in Loaded(rows)
    ensures Told(rows, [], u, Loaded(rows)[u])
  {
    LoadedMatches(rows);
    LoadedPosition(rows, Names(rows, []), u);
    assert HasRow(rows, u);
    var k :| 0 <= k < |rows| && rows[k] != [] && rows[k][0] == u;
    assert InTable(Loaded(rows), rows[k]);
  }

  // ----- the steps -----

  /** With two sessions at most, looking at both ends is looking at all. */
  lemma ClosedIsRemoved(u: UserData, id: nat)
    requires |u.sessions| <= 2
    ensures RemovedSession(u, id) == u.(sessions := Closed(u.sessions, id))
  {
    var ss := u.sessions;
    if |ss| == 2 {
      assert ss == [ss[0], ss[1]] && ss[1..] == [ss[1]] && ss[1..][1..] == [] && ss[..1] == [ss[0]];
      assert Closed(ss[1..], id) == if ss[1].threadId == id then [] else [ss[1]];
    } else if |ss| == 1 {
      assert ss == [ss[0]] && ss[1..] == [];
    }
  }

  lemma {:induction false} LiveAtMostTwo(ops: seq<Op>, u: string)
    ensures |LiveSessions(ops, u)| <= 2
  {
    if ops != [] {
      LiveAtMostTwo(ops[..|ops| - 1], u);
      if ops[|ops| - 1].CloseOp? {
        ClosedShorter(LiveSessions(ops[..|ops| - 1], u), ops[|ops| - 1].id);
      }
    }
  }

  lemma {:induction false} ClosedShorter(sessions: seq<Session>, id: nat)
    ensures |Closed(sessions, id)| <= |sessions|
  {
    if sessions != [] {
      ClosedShorter(sessions[1..], id);
    }
  }

  lemma {:induction false} UnregisteredHasNothing(rows: seq<seq<string>>, ops: seq<Op>, u: string)
    requires NoEmptyRow(rows) && u !in Names(rows, ops)
    ensures LiveSessions(ops, u) == [] && forall x :: !FollowedBy(rows, ops, u, x)
  {
    if ops == [] {
      forall k | 0 <= k < |rows| ensures rows[k][0] != u {
        assert rows[k][0] == Names(rows, [])[k];
      }
    } else {
      UnregisteredHasNothing(rows, ops[..|ops| - 1], u);
    }
  }

  /** A user that was there before the last operation, in a table that the history told so far. */
  ghost predicate ToldBefore(rows: seq<seq<string>>, ops: seq<Op>, users: Table)
    requires NoEmptyRow(rows) && ops != []
  {
    && |users| == |Names(rows, ops[..|ops| - 1])|
    && forall u :: && (u in users <==> u in Names(rows, ops[..|ops| - 1]))
                   && (u in users ==> Told(rows, ops[..|ops| - 1], u, users[u]))
  }

  lemma StartTold(rows: seq<seq<string>>, ops: seq<Op>, users: Table, u: string)
    requires NoEmptyRow(rows) && ops != [] && ops[|ops| - 1].StartOp? && ToldBefore(rows, ops, users)
    requires u in StartSession(users, ops[|ops| - 1].username, ops[|ops| - 1].session)
    ensures Told(rows, ops, u, StartSession(users, ops[|ops| - 1].username, ops[|ops| - 1].session)[u])
  {
    var front := ops[..|ops| - 1];
    if u !in users {
      UnregisteredHasNothing(rows, front, u);
    } else {
      assert Told(rows, front, u, users[u]);
      assert u in Names(rows, front);
    }
    assert forall x :: FollowedBy(rows, ops, u, x) <==> FollowedBy(rows, front, u, x);
  }

  lemma CloseTold(rows: seq<seq<string>>, ops: seq<Op>, users: Table, u: string)
    requires NoEmptyRow(rows) && ops != [] && ops[|ops| - 1].CloseOp? && ToldBefore(rows, ops, users) && u in users
    ensures Told(rows, ops, u, CloseSession(users, ops[|ops| - 1].username, ops[|ops| - 1].id)[u])
  {
    LiveAtMostTwo(ops[..|ops| - 1], u);
    ClosedIsRemoved(users[u], ops[|ops| - 1].id);
  }

  lemma FollowTold(rows: seq<seq<string>>, ops: seq<Op>, users: Table, u: string)
    requires NoEmptyRow(rows) && ops != [] && ops[|ops| - 1].FollowOp? && ToldBefore(rows, ops, users) && u in users
    requires AllOk(users)
    ensures Told(rows, ops, u, Follow(users, ops[|ops| - 1].follower, ops[|ops| - 1].userToFollow)[u])
  {
    AddFollowerKeeps(users[u], ops[|ops| - 1].follower);
  }

  lemma RestartTold(rows: seq<seq<string>>, ops: seq<Op>, w: World, u: string)
    requires NoEmptyRow(rows) && ops != [] && ops[|ops| - 1].RestartOp? && ToldBefore(rows, ops, w.users)
    requires Inv(w) && Heads(w.rows, Names(rows, ops)) && u in Step(w, RestartOp).users
    ensures Told(rows, ops, u, Step(w, RestartOp).users[u])
  {
    ReadBack(w.disk, w.rows);
    LoadedMatches(w.rows);
    MatchingBoth(w.users, Loaded(w.rows), w.rows);
    LoadedPosition(w.rows, Names(rows, ops), u);
    assert Told(rows, ops[..|ops| - 1], u, w.users[u]);
  }

  lemma StepTold(rows: seq<seq<string>>, ops: seq<Op>, w: World, u: string)
    requires NoEmptyRow(rows) && ops != [] && ToldBefore(rows, ops, w.users) && u in Step(w, ops[|ops| - 1]).users
    requires Inv(w) && Heads(w.rows, Names(rows, ops[..|ops| - 1]))
    ensures Told(rows, ops, u, Step(w, ops[|ops| - 1]).users[u])
  {
    match ops[|ops| - 1]
    case StartOp(_, _) => StartTold(rows, ops, w.users, u);
    case FollowOp(_, _) => FollowTold(rows, ops, w.users, u);
    case CloseOp(_, _) => CloseTold(rows, ops, w.users, u);
    case RestartOp => RestartTold(rows, ops, w, u);
  }

  /** After every run the table holds the registered users, each as the history tells. */
  lemma {:induction false} TableShowsHistory(rows: seq<seq<string>>, ops: seq<Op>, u: string)
    requires NoEmptyRow(rows) && GoodRows(rows)
    requires forall i :: 0 <= i < |ops| ==> SafeOp(ops[i])
    ensures u in Run(Started(rows), ops).users <==> u in Names(rows, ops)
    ensures u in Run(Started(rows), ops).users ==> Told(rows, ops, u, Run(Started(rows), ops).users[u])
  {
    RegisteredAre(rows, ops);
    if u in Run(Started(rows), ops).users {
      if ops == [] {
        LoadedTold(rows, u);
      } else {
        var front := ops[..|ops| - 1];
        RegisteredAre(rows, front);
        forall v ensures v in Run(Started(rows), front).users ==> Told(rows, front, v, Run(Started(rows), front).users[v]) {
          TableShowsHistory(rows, front, v);
        }
        RunKeepsInv(rows, front);
        RowsAre(rows, front);
        StepTold(rows, ops, Run(Started(rows), front), u);
      }
    }
  }

  /** A new user with this session, a session more, or nothing at all; nobody else changes. */
  lemma StartChanges(users: Table, u: string, session: Session)
    requires u in users ==> |users[u].sessions| <= 2
    ensures u !in users ==> StartSession(users, u, session) == users[u := UserData(|users|, u, [], [session])]
    ensures u in users && |users[u].sessions| <= 1 ==>
      StartSession(users, u, session) == users[u := users[u].(sessions := users[u].sessions + [session])]
    ensures u in users && |users[u].sessions| == 2 ==> StartSession(users, u, session) == users
  {
    assert [] + [session] == [session];
    if u in users {
      assert users[u := users[u]] == users;
    }
  }

  /** Whether a session starts is told by the number of live ones, and nobody else changes. */
  lemma StartExactly(rows: seq<seq<string>>, ops: seq<Op>, u: string, session: Session)
    requires NoEmptyRow(rows) && GoodRows(rows)
    requires forall i :: 0 <= i < |ops| ==> SafeOp(ops[i])
    ensures u in Run(Started(rows), ops).users <==> u in Names(rows, ops)
    ensures
      var users, names, live := Run(Started(rows), ops).users, Names(rows, ops), LiveSessions(ops, u);
      var users' := StartSession(users, u, session);
      if u !in users then users' == users[u := UserData(|names|, u, [], [session])]
      else if |live| <= 1 then users' == users[u := users[u].(sessions := live + [session])]
      else users' == users
  {
    RegisteredAre(rows, ops);
    TableShowsHistory(rows, ops, u);
    LiveAtMostTwo(ops, u);
    StartChanges(Run(Started(rows), ops).users, u, session);
  }
}
