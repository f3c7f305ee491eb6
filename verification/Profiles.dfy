/**
 * The user table of ProfileManager beside the file that stores it: what each operation does to both,
 * and that they agree after every run.
 */
module Profiles {
  import opened Sequences
  import opened StringUtils
  import opened CsvText
  import opened CsvFiles
  import opened Users
  import NotificationStore

  type Table = map<string, UserData>

  datatype DiskState = Absent | Stored(content: string)

  const SPLIT: char := ';'

  // ----- ProfilePersistency -----

  function WithFollowers(u: UserData, followers: seq<string>): UserData {
    if followers == [] then u
    else AddedFollower(WithFollowers(u, followers[..|followers| - 1]), followers[|followers| - 1])
  }

  function LoadedUser(id: int, row: seq<string>): UserData
    requires row != []
  {
    WithFollowers(UserData(id, row[0], [], []), row[1..])
  }

  predicate NoEmptyRow(rows: seq<seq<string>>) {
    forall k :: 0 <= k < |rows| ==> rows[k] != []
  }

  /** One user for each row, numbered from 1. */
  function Loaded(rows: seq<seq<string>>): Table
    requires NoEmptyRow(rows)
  {
    if rows == [] then map[]
    else
      var row := rows[|rows| - 1];
      NotificationStore.Register(Loaded(rows[..|rows| - 1]), row[0], LoadedUser(|rows|, row))
  }

  /** readUsers looks at the first column of every row, so the file must have no empty line. */
  predicate Readable(d: DiskState) {
    d.Stored? ==> forall k :: 0 <= k < |Lines(d.content)| ==> Lines(d.content)[k] != ""
  }

  lemma ReadableRows(content: string)
    requires Readable(Stored(content))
    ensures NoEmptyRow(FileRows(content, SPLIT))
  {
    forall k | 0 <= k < |Lines(content)| ensures FileRows(content, SPLIT)[k] != [] {
      NoColumns(Lines(content)[k], SPLIT);
    }
  }

  function ReadUsers(d: DiskState): Table
    requires Readable(d)
  {
    if d.Absent? then map[]
    else
      ReadableRows(d.content);
      Loaded(FileRows(d.content, SPLIT))
  }

  function ContentOf(d: DiskState): string {
    if d.Absent? then "" else d.content
  }

  function SaveNewUser(d: DiskState, user: string): DiskState {
    Stored(Appended(ContentOf(d), RowText([user], SPLIT)))
  }

  function SaveNewFollower(d: DiskState, user: string, follower: string): DiskState {
    var content := ContentOf(d);
    Stored(if Lines(content)[0] == "" then content else Rewritten(content, SPLIT, 0, user, [follower]))
  }

  // ----- ProfileManager -----

  predicate Follows(users: Table, follower: string, userToFollow: string) {
    follower in users && userToFollow in users && CanFollow(users[userToFollow], follower)
  }

  function Follow(users: Table, follower: string, userToFollow: string): Table {
    if follower in users && userToFollow in users
    then users[userToFollow := AddedFollower(users[userToFollow], follower)]
    else users
  }

  /** A new user's id is the size of the table so far. */
  function StartSession(users: Table, username: string, session: Session): Table {
    users[username := AddedSession(if username in users then users[username] else UserData(|users|, username, [], []), session)]
  }

  function CloseSession(users: Table, username: string, id: nat): Table {
    if username in users then users[username := RemovedSession(users[username], id)] else users
  }

  // ----- runs -----

  datatype Op =
    | StartOp(username: string, session: Session)
    | FollowOp(follower: string, userToFollow: string)
    | CloseOp(username: string, id: nat)
    | RestartOp                          // the leader starts again, from the file

  /** `rows` is the table that ought to be in the file. */
  datatype World = World(users: Table, disk: DiskState, rows: seq<seq<string>>)

  function StepStart(w: World, username: string, session: Session): World {
    var users := StartSession(w.users, username, session);
    if username in w.users then w.(users := users)
    else World(users, SaveNewUser(w.disk, username), w.rows + [[username]])
  }

  function StepFollow(w: World, follower: string, userToFollow: string): World {
    var users := Follow(w.users, follower, userToFollow);
    if Follows(w.users, follower, userToFollow) then
      World(users, SaveNewFollower(w.disk, userToFollow, follower), ExtendedAll(w.rows, 0, userToFollow, [follower]))
    else w.(users := users)
  }

  function Step(w: World, op: Op): World {
    match op
    case StartOp(u, session) => StepStart(w, u, session)
    case FollowOp(f, u) => StepFollow(w, f, u)
    case CloseOp(u, id) => w.(users := CloseSession(w.users, u, id))
    case RestartOp => if Readable(w.disk) then w.(users := ReadUsers(w.disk)) else w
  }

  function Run(w: World, ops: seq<Op>): World {
    if ops == [] then w else Step(Run(w, ops[..|ops| - 1]), ops[|ops| - 1])
  }

  // ----- the invariant -----

  /** A row of the table: a user, and that user's followers once each. */
  predicate GoodRow(row: seq<string>) {
    SafeRow(row, SPLIT) && NoRepeats(row)
  }

  predicate GoodRows(rows: seq<seq<string>>) {
    && (forall k :: 0 <= k < |rows| ==> GoodRow(rows[k]))
    && forall j, k :: 0 <= j < k < |rows| ==> rows[j] != [] && rows[k] != [] && rows[j][0] != rows[k][0]
  }

  ghost predicate SameFollowers(u: UserData, row: seq<string>) {
    row != [] && u.username == row[0] && forall x :: x in u.followers <==> x in row[1..]
  }

  /** The users in memory are the rows, as sets of followers. */
  ghost predicate Matching(users: Table, rows: seq<seq<string>>) {
    && (forall k :: 0 <= k < |rows| ==> InTable(users, rows[k]))
    && (forall u :: u in users ==> HasRow(rows, u))
  }

  ghost predicate InTable(users: Table, row: seq<string>) {
    row != [] && row[0] in users && SameFollowers(users[row[0]], row)
  }

  ghost predicate HasRow(rows: seq<seq<string>>, u: string) {
    exists k :: 0 <= k < |rows| && rows[k] != [] && rows[k][0] == u
  }

  predicate OnDisk(d: DiskState, rows: seq<seq<string>>) {
    if rows == [] then d.Absent? else d == Stored(FileText(rows, SPLIT))
  }

  ghost predicate AllOk(users: Table) {
    forall u :: u in users ==> UserOk(users[u]) && users[u].username == u
  }

  ghost predicate Inv(w: World) {
    && GoodRows(w.rows)
    && OnDisk(w.disk, w.rows)
    && Matching(w.users, w.rows)
    && AllOk(w.users)
  }

  // ----- loading -----

  lemma {:induction false} WithFollowersAre(id: int, row: seq<string>, n: nat)
    requires GoodRow(row) && n < |row|
    ensures
      var u := WithFollowers(UserData(id, row[0], [], []), row[1..][..n]);
      && u.id == id && u.username == row[0] && u.sessions == [] && UserOk(u)
      && forall x :: x in u.followers <==> x in row[1..][..n]
  {
    if n > 0 {
      var rest := row[1..];
      WithFollowersAre(id, row, n - 1);
      assert rest[..n][..n - 1] == rest[..n - 1] && rest[..n] == rest[..n - 1] + [rest[n - 1]];
      var u := WithFollowers(UserData(id, row[0], [], []), rest[..n - 1]);
      assert rest[n - 1] == row[n];
      assert rest[n - 1] !in rest[..n - 1];
      AddFollowerKeeps(u, rest[n - 1]);
    }
  }

  /** Loading a row gives exactly its followers. */
  lemma LoadedUserIs(id: int, row: seq<string>)
    requires GoodRow(row)
    ensures UserOk(LoadedUser(id, row)) && SameFollowers(LoadedUser(id, row), row)
    ensures LoadedUser(id, row).id == id && LoadedUser(id, row).sessions == []
  {
    WithFollowersAre(id, row, |row| - 1);
    assert row[1..][..|row| - 1] == row[1..];
  }

  lemma RowAddedMatches(rows: seq<seq<string>>, users: Table, row: seq<string>, data: UserData)
    requires Matching(users, rows) && row != [] && row[0] !in users && SameFollowers(data, row)
    ensures Matching(users[row[0] := data], rows + [row])
  {
    var after, users' := rows + [row], users[row[0] := data];
    forall u | u in users' ensures HasRow(after, u) {
      if u == row[0] {
        assert after[|rows|][0] == u;
      } else {
        assert HasRow(rows, u);
        var k :| 0 <= k < |rows| && rows[k] != [] && rows[k][0] == u;
        assert after[k][0] == u;
      }
    }
    forall k | 0 <= k < |after| ensures InTable(users', after[k]) {
      if k < |rows| {
        assert InTable(users, rows[k]);
      }
    }
  }

  lemma NewInFront(rows: seq<seq<string>>)
    requires rows != [] && GoodRows(rows)
    requires Matching(Loaded(rows[..|rows| - 1]), rows[..|rows| - 1])
    ensures GoodRow(rows[|rows| - 1]) && rows[|rows| - 1][0] !in Loaded(rows[..|rows| - 1])
  {
    var front, row := rows[..|rows| - 1], rows[|rows| - 1];
    assert !HasRow(front, row[0]);
  }

  lemma {:induction false} LoadedFresh(rows: seq<seq<string>>)
    requires GoodRows(rows)
    ensures AllOk(Loaded(rows))
    ensures forall u :: u in Loaded(rows) ==> Loaded(rows)[u].sessions == [] && Loaded(rows)[u].id > 0
  {
    if rows != [] {
      LoadedFresh(rows[..|rows| - 1]);
      LoadedUserIs(|rows|, rows[|rows| - 1]);
    }
  }

  lemma {:induction false} LoadedMatching(rows: seq<seq<string>>)
    requires GoodRows(rows)
    ensures Matching(Loaded(rows), rows)
  {
    if rows != [] {
      var front, row := rows[..|rows| - 1], rows[|rows| - 1];
      LoadedMatching(front);
      LoadedUserIs(|rows|, row);
      NewInFront(rows);
      RowAddedMatches(front, Loaded(front), row, LoadedUser(|rows|, row));
      assert front + [row] == rows;
    }
  }

  lemma LoadedMatches(rows: seq<seq<string>>)
    requires GoodRows(rows)
    ensures Matching(Loaded(rows), rows) && AllOk(Loaded(rows))
    ensures forall u :: u in Loaded(rows) ==> Loaded(rows)[u].sessions == [] && Loaded(rows)[u].id > 0
  {
    LoadedFresh(rows);
    LoadedMatching(rows);
  }

  lemma GoodRowsSafe(rows: seq<seq<string>>)
    requires GoodRows(rows)
    ensures SafeRows(rows, SPLIT) && NoEmptyRow(rows)
  {
  }

  lemma LinesShape(rows: seq<seq<string>>)
    requires rows != [] && GoodRows(rows)
    ensures Lines(FileText(rows, SPLIT)) == RowTexts(rows, SPLIT)
    ensures FileRows(FileText(rows, SPLIT), SPLIT) == rows
    ensures Stable(FileText(rows, SPLIT), SPLIT)
  {
    GoodRowsSafe(rows);
    FileRowsOfText(rows, SPLIT);
    forall k | 0 <= k < |rows| ensures RowTexts(rows, SPLIT)[k] != "" && !EndsWith(RowTexts(rows, SPLIT)[k], SPLIT) {
      RowTextShape(rows[k], SPLIT);
    }
  }

  /** The file is read as the rows that ought to be in it. */
  lemma ReadBack(d: DiskState, rows: seq<seq<string>>)
    requires GoodRows(rows) && OnDisk(d, rows)
    ensures Readable(d) && NoEmptyRow(rows) && ReadUsers(d) == Loaded(rows)
  {
    GoodRowsSafe(rows);
    if rows != [] {
      LinesShape(rows);
    }
  }

  // ----- the steps -----

  lemma AppendText(rows: seq<seq<string>>, user: string)
    requires rows != [] && GoodRows(rows)
    ensures FileText(rows, SPLIT) != ""
    ensures FileText(rows + [[user]], SPLIT) == FileText(rows, SPLIT) + "\n" + user
  {
    RowTextShape(rows[0], SPLIT);
    JoinedNotEmpty(RowTexts(rows, SPLIT), "\n");
    assert RowTexts(rows + [[user]], SPLIT) == RowTexts(rows, SPLIT) + [user];
    JoinedSnoc(RowTexts(rows, SPLIT), "\n", user);
  }

  lemma NewRowKeeps(rows: seq<seq<string>>, users: Table, user: string)
    requires GoodRows(rows) && Matching(users, rows) && SafeField(user, SPLIT) && user !in users
    ensures GoodRows(rows + [[user]])
  {
    var after := rows + [[user]];
    forall j, k | 0 <= j < k < |after| ensures after[j] != [] && after[k] != [] && after[j][0] != after[k][0] {
      assert j < |rows|;
      assert rows[j][0] in users;
    }
  }

  /** Changing a user's sessions, or the order of the followers, changes nothing that is on disk. */
  lemma SameUserMatches(rows: seq<seq<string>>, users: Table, user: string, data: UserData)
    requires Matching(users, rows) && user in users && data.username == users[user].username
    requires forall x :: x in data.followers <==> x in users[user].followers
    ensures Matching(users[user := data], rows)
  {
    forall k | 0 <= k < |rows| ensures InTable(users[user := data], rows[k]) {
      assert InTable(users, rows[k]);
    }
  }

  lemma NewUserOnDisk(d: DiskState, rows: seq<seq<string>>, user: string)
    requires GoodRows(rows) && OnDisk(d, rows) && SafeField(user, SPLIT)
    ensures OnDisk(SaveNewUser(d, user), rows + [[user]])
  {
    if rows == [] {
      assert RowTexts([[user]], SPLIT) == [user];
      assert rows + [[user]] == [[user]];
    } else {
      AppendText(rows, user);
    }
  }

  lemma StartOk(users: Table, user: string, session: Session)
    requires AllOk(users)
    ensures AllOk(StartSession(users, user, session))
  {
  }

  lemma StartKeeps(w: World, user: string, session: Session)
    requires Inv(w) && (user in w.users || SafeField(user, SPLIT))
    ensures Inv(StepStart(w, user, session))
  {
    StartOk(w.users, user, session);
    if user in w.users {
      SameUserMatches(w.rows, w.users, user, AddedSession(w.users[user], session));
    } else {
      NewRowKeeps(w.rows, w.users, user);
      RowAddedMatches(w.rows, w.users, [user], AddedSession(UserData(|w.users|, user, [], []), session));
      NewUserOnDisk(w.disk, w.rows, user);
    }
  }

  lemma ExtendedRow(rows: seq<seq<string>>, user: string, follower: string, k: nat)
    requires GoodRows(rows) && k < |rows|
    ensures ExtendedAll(rows, 0, user, [follower])[k] == if rows[k][0] == user then rows[k] + [follower] else rows[k]
  {
    assert rows[k] != [];
  }

  lemma FollowKeepsRow(row: seq<string>, users: Table, user: string, follower: string)
    requires GoodRow(row) && InTable(users, row) && row[0] == user && SafeField(follower, SPLIT) && Follows(users, follower, user)
    ensures GoodRow(row + [follower])
  {
    assert row == [row[0]] + row[1..];
    assert follower !in row;
  }

  lemma FollowKeepsRows(rows: seq<seq<string>>, users: Table, user: string, follower: string)
    requires GoodRows(rows) && Matching(users, rows) && Follows(users, follower, user)
    ensures GoodRows(ExtendedAll(rows, 0, user, [follower]))
  {
    var after := ExtendedAll(rows, 0, user, [follower]);
    assert HasRow(rows, follower);
    var f :| 0 <= f < |rows| && rows[f] != [] && rows[f][0] == follower;
    assert SafeField(rows[f][0], SPLIT);
    forall k | 0 <= k < |rows| ensures GoodRow(after[k]) && after[k][0] == rows[k][0] {
      ExtendedRow(rows, user, follower, k);
      if rows[k][0] == user {
        FollowKeepsRow(rows[k], users, user, follower);
      }
    }
    forall j, k | 0 <= j < k < |after| ensures after[j] != [] && after[k] != [] && after[j][0] != after[k][0] {
      assert rows[j][0] != rows[k][0];
    }
  }

  lemma FollowMatchesRow(row: seq<string>, users: Table, user: string, follower: string)
    requires InTable(users, row) && UserOk(users[row[0]]) && Follows(users, follower, user)
    ensures InTable(Follow(users, follower, user), if row[0] == user then row + [follower] else row)
  {
    if row[0] == user {
      AddFollowerKeeps(users[user], follower);
      assert (row + [follower])[1..] == row[1..] + [follower];
    }
  }

  lemma FollowMatches(rows: seq<seq<string>>, users: Table, user: string, follower: string)
    requires GoodRows(rows) && Matching(users, rows) && AllOk(users) && Follows(users, follower, user)
    ensures Matching(Follow(users, follower, user), ExtendedAll(rows, 0, user, [follower]))
  {
    var after, users' := ExtendedAll(rows, 0, user, [follower]), Follow(users, follower, user);
    forall k | 0 <= k < |after| ensures InTable(users', after[k]) && after[k][0] == rows[k][0] {
      ExtendedRow(rows, user, follower, k);
      assert InTable(users, rows[k]);
      FollowMatchesRow(rows[k], users, user, follower);
    }
    forall u | u in users' ensures HasRow(after, u) {
      assert HasRow(rows, u);
      var k :| 0 <= k < |rows| && rows[k] != [] && rows[k][0] == u;
      assert after[k] != [] && after[k][0] == u;
    }
  }

  /** The rewrite in place leaves exactly the extended table in the file. */
  lemma FollowOnDisk(d: DiskState, rows: seq<seq<string>>, user: string, follower: string)
    requires GoodRows(rows) && OnDisk(d, rows) && rows != []
    ensures SaveNewFollower(d, user, follower) == Stored(FileText(ExtendedAll(rows, 0, user, [follower]), SPLIT))
  {
    LinesShape(rows);
    RewriteComplete(d.content, SPLIT, 0, user, [follower]);
  }

  lemma FollowOk(users: Table, follower: string, user: string)
    requires AllOk(users)
    ensures AllOk(Follow(users, follower, user))
  {
    if follower in users && user in users {
      AddFollowerKeeps(users[user], follower);
    }
  }

  lemma RefusedKeeps(w: World, follower: string, user: string)
    requires Inv(w) && !Follows(w.users, follower, user)
    ensures Matching(Follow(w.users, follower, user), w.rows)
  {
    if follower in w.users && user in w.users {
      AddFollowerKeeps(w.users[user], follower);
      SameUserMatches(w.rows, w.users, user, AddedFollower(w.users[user], follower));
    }
  }

  lemma FollowKeeps(w: World, follower: string, user: string)
    requires Inv(w)
    ensures Inv(StepFollow(w, follower, user))
  {
    FollowOk(w.users, follower, user);
    if Follows(w.users, follower, user) {
      assert HasRow(w.rows, user);
      FollowKeepsRows(w.rows, w.users, user, follower);
      FollowMatches(w.rows, w.users, user, follower);
      FollowOnDisk(w.disk, w.rows, user, follower);
    } else {
      RefusedKeeps(w, follower, user);
    }
  }

  lemma CloseKeeps(w: World, user: string, id: nat)
    requires Inv(w)
    ensures Inv(w.(users := CloseSession(w.users, user, id)))
  {
    if user in w.users {
      SameUserMatches(w.rows, w.users, user, RemovedSession(w.users[user], id));
    }
  }

  /** New user names are fit for the file. */
  predicate SafeOp(op: Op) {
    op.StartOp? ==> SafeField(op.username, SPLIT)
  }

  /** The world when the leader starts, without a file or with one that holds an earlier table. */
  function Started(rows: seq<seq<string>>): World
    requires NoEmptyRow(rows)
  {
    World(Loaded(rows), if rows == [] then Absent else Stored(FileText(rows, SPLIT)), rows)
  }

  lemma RestartKeeps(w: World)
    requires Inv(w)
    ensures Inv(Step(w, RestartOp))
  {
    ReadBack(w.disk, w.rows);
    LoadedMatches(w.rows);
  }

  lemma StepKeeps(w: World, op: Op)
    requires Inv(w) && SafeOp(op)
    ensures Inv(Step(w, op))
  {
    match op
    case StartOp(u, session) => StartKeeps(w, u, session);
    case FollowOp(f, u) => FollowKeeps(w, f, u);
    case CloseOp(u, id) => CloseKeeps(w, u, id);
    case RestartOp => RestartKeeps(w);
  }

  lemma StartedInv(rows: seq<seq<string>>)
    requires NoEmptyRow(rows) && GoodRows(rows)
    ensures Inv(Started(rows)) && AllDistinct(Started(rows).users)
  {
    LoadedMatches(rows);
  }

  lemma {:induction false} RunKeepsInv(rows: seq<seq<string>>, ops: seq<Op>)
    requires NoEmptyRow(rows) && GoodRows(rows)
    requires forall i :: 0 <= i < |ops| ==> SafeOp(ops[i])
    ensures Inv(Run(Started(rows), ops))
  {
    if ops == [] {
      StartedInv(rows);
    } else {
      RunKeepsInv(rows, ops[..|ops| - 1]);
      StepKeeps(Run(Started(rows), ops[..|ops| - 1]), ops[|ops| - 1]);
    }
  }

  lemma MatchingBoth(a: Table, b: Table, rows: seq<seq<string>>)
    requires Matching(a, rows) && Matching(b, rows)
    ensures a.Keys == b.Keys
    ensures forall u, x :: u in a ==> (x in a[u].followers <==> x in b[u].followers)
  {
    forall u ensures u in a <==> u in b {
      if u in a || u in b {
        assert HasRow(rows, u);
        var k :| 0 <= k < |rows| && rows[k] != [] && rows[k][0] == u;
        assert InTable(a, rows[k]) && InTable(b, rows[k]);
      }
    }
    forall u, x | u in a ensures x in a[u].followers <==> x in b[u].followers {
      assert HasRow(rows, u);
      var k :| 0 <= k < |rows| && rows[k] != [] && rows[k][0] == u;
      assert InTable(a, rows[k]) && InTable(b, rows[k]);
    }
  }

  /** Reading the file gives the users in memory, with the same sets of followers. */
  lemma DiskAgrees(rows: seq<seq<string>>, ops: seq<Op>)
    requires NoEmptyRow(rows) && GoodRows(rows)
    requires forall i :: 0 <= i < |ops| ==> SafeOp(ops[i])
    ensures
      var w := Run(Started(rows), ops);
      && Readable(w.disk)
      && ReadUsers(w.disk).Keys == w.users.Keys
      && forall u, x :: u in w.users ==> (x in w.users[u].followers <==> x in ReadUsers(w.disk)[u].followers)
  {
    RunKeepsInv(rows, ops);
    var w := Run(Started(rows), ops);
    ReadBack(w.disk, w.rows);
    LoadedMatches(w.rows);
    MatchingBoth(w.users, Loaded(w.rows), w.rows);
  }

  /** Followers are a set without the user itself, and nobody has more than two sessions. */
  lemma UsersOk(rows: seq<seq<string>>, ops: seq<Op>, u: string)
    requires NoEmptyRow(rows) && GoodRows(rows)
    requires forall i :: 0 <= i < |ops| ==> SafeOp(ops[i])
    requires u in Run(Started(rows), ops).users
    ensures
      var user := Run(Started(rows), ops).users[u];
      && NoRepeats(user.followers) && u !in user.followers && |user.sessions| <= 2
  {
    RunKeepsInv(rows, ops);
  }

  /** After a restart the next new user gets the id of the user loaded last. */
  lemma NewUserSharesId(rows: seq<seq<string>>, username: string, session: Session)
    requires rows != [] && NoEmptyRow(rows) && GoodRows(rows) && username !in Loaded(rows)
    ensures
      var users, last := Loaded(rows), rows[|rows| - 1][0];
      && last in users && username != last
      && StartSession(users, username, session)[username].id == users[last].id
  {
    LoadedSize(rows);
    LoadedLast(rows);
  }

  lemma LoadedLast(rows: seq<seq<string>>)
    requires rows != [] && NoEmptyRow(rows) && GoodRows(rows)
    ensures rows[|rows| - 1][0] in Loaded(rows) && Loaded(rows)[rows[|rows| - 1][0]].id == |rows|
  {
    var front, row := rows[..|rows| - 1], rows[|rows| - 1];
    LoadedMatches(front);
    assert !HasRow(front, row[0]);
    LoadedUserIs(|rows|, row);
  }

  lemma {:induction false} LoadedSize(rows: seq<seq<string>>)
    requires NoEmptyRow(rows) && GoodRows(rows)
    ensures |Loaded(rows)| == |rows|
  {
    if rows != [] {
      var front, row := rows[..|rows| - 1], rows[|rows| - 1];
      LoadedSize(front);
      LoadedMatches(front);
      assert !HasRow(front, row[0]);
      assert Loaded(rows).Keys == Loaded(front).Keys + {row[0]};
      assert |Loaded(rows).Keys| == |Loaded(rows)| && |Loaded(front).Keys| == |Loaded(front)|;
    }
  }

  // ----- sessions -----

  predicate IdFree(users: Table, username: string, id: nat) {
    username in users ==>
      forall k :: 0 <= k < |users[username].sessions| ==> users[username].sessions[k].threadId != id
  }

  /** A session that starts has an id that none of the user's live sessions has. */
  predicate FreshSessions(w: World, ops: seq<Op>) {
    ops == [] ||
      var front, op := ops[..|ops| - 1], ops[|ops| - 1];
      && FreshSessions(w, front)
      && (op.StartOp? ==> IdFree(Run(w, front).users, op.username, op.session.threadId))
  }

  ghost predicate AllDistinct(users: Table) {
    forall u :: u in users ==> DistinctSessions(users[u].sessions)
  }

  lemma StartDistinct(users: Table, u: string, session: Session)
    requires AllDistinct(users) && IdFree(users, u, session.threadId)
    ensures AllDistinct(StartSession(users, u, session))
  {
  }

  lemma CloseDistinct(w: World, u: string, id: nat)
    requires Inv(w) && AllDistinct(w.users)
    ensures AllDistinct(Step(w, CloseOp(u, id)).users)
  {
    if u in w.users {
      RemoveSessionExact(w.users[u], id);
    }
  }

  lemma StepDistinct(w: World, op: Op)
    requires Inv(w) && AllDistinct(w.users)
    requires op.StartOp? ==> IdFree(w.users, op.username, op.session.threadId)
    ensures AllDistinct(Step(w, op).users)
  {
    match op
    case StartOp(u, session) => StartDistinct(w.users, u, session);
    case FollowOp(f, u) =>
    case CloseOp(u, id) => CloseDistinct(w, u, id);
    case RestartOp =>
      ReadBack(w.disk, w.rows);
      LoadedMatches(w.rows);
  }

  lemma {:induction false} SessionsDistinct(rows: seq<seq<string>>, ops: seq<Op>)
    requires NoEmptyRow(rows) && GoodRows(rows)
    requires forall i :: 0 <= i < |ops| ==> SafeOp(ops[i])
    requires FreshSessions(Started(rows), ops)
    ensures AllDistinct(Run(Started(rows), ops).users)
  {
    if ops == [] {
      StartedInv(rows);
    } else {
      SessionsDistinct(rows, ops[..|ops| - 1]);
      RunKeepsInv(rows, ops[..|ops| - 1]);
      StepDistinct(Run(Started(rows), ops[..|ops| - 1]), ops[|ops| - 1]);
    }
  }

  /** Closing a session removes that session and no other. */
  lemma CloseIsExact(rows: seq<seq<string>>, ops: seq<Op>, u: string, id: nat)
    requires NoEmptyRow(rows) && GoodRows(rows)
    requires forall i :: 0 <= i < |ops| ==> SafeOp(ops[i])
    requires FreshSessions(Started(rows), ops) && u in Run(Started(rows), ops).users
    ensures
      var w := Run(Started(rows), ops);
      Step(w, CloseOp(u, id)) == w.(users := w.users[u := w.users[u].(sessions := Without(w.users[u].sessions, id))])
  {
    RunKeepsInv(rows, ops);
    SessionsDistinct(rows, ops);
    RemoveSessionExact(Run(Started(rows), ops).users[u], id);
  }
}
