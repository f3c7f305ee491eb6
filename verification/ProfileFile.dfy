/**
 * What a replica finds in the file that it leads with, whether or not the file agrees with its table: the
 * operations on the file, read back, are operations on the table in it.
 */
module ProfileFile {
  import opened StringUtils
  import opened CsvText
  import opened CsvFiles
  import opened Users
  import opened Profiles
  import NotificationStore

  lemma SafeLines(rows: seq<seq<string>>)
    requires rows != [] && SafeRows(rows, SPLIT)
    ensures
      var d := Stored(FileText(rows, SPLIT));
      Readable(d) && FileRows(d.content, SPLIT) == rows && NoEmptyRow(rows) && ReadUsers(d) == Loaded(rows)
  {
    FileRowsOfText(rows, SPLIT);
    forall k | 0 <= k < |rows| ensures RowTexts(rows, SPLIT)[k] != "" {
      RowTextShape(rows[k], SPLIT);
    }
  }

  /** What a replica may find: the printed table, or the empty file that a follow without a file leaves. */
  predicate Written(d: DiskState, rows: seq<seq<string>>) {
    OnDisk(d, rows) || (rows == [] && d == Stored(""))
  }

  lemma EmptyLine()
    ensures Lines("") == [""] && !Readable(Stored(""))
  {
    LinesStep("");
    assert Lines(Stored("").content)[0] == "";
  }

  /** Only that empty file cannot be read. */
  lemma WrittenReadBack(d: DiskState, rows: seq<seq<string>>)
    requires GoodRows(rows) && Written(d, rows)
    ensures NoEmptyRow(rows) && (Readable(d) <==> d != Stored(""))
    ensures Readable(d) ==> OnDisk(d, rows) && ReadUsers(d) == Loaded(rows)
  {
    EmptyLine();
    GoodRowsSafe(rows);
    if OnDisk(d, rows) {
      ReadBack(d, rows);
    }
  }

  /** Storing a new user leaves the printed table with that user; it repairs the empty file. */
  lemma NewUserWritten(d: DiskState, rows: seq<seq<string>>, user: string)
    requires GoodRows(rows) && Written(d, rows) && SafeField(user, SPLIT)
    ensures OnDisk(SaveNewUser(d, user), rows + [[user]])
  {
    if OnDisk(d, rows) {
      NewUserOnDisk(d, rows, user);
    } else {
      assert SaveNewUser(Stored(""), user) == SaveNewUser(Absent, user);
      NewUserOnDisk(Absent, rows, user);
    }
  }

  /** Storing a new user adds that user to what the file stands for, unless the file has it already. */
  lemma NewUserReadBack(d: DiskState, rows: seq<seq<string>>, user: string)
    requires GoodRows(rows) && Written(d, rows) && SafeField(user, SPLIT)
    ensures OnDisk(SaveNewUser(d, user), rows + [[user]]) && Readable(SaveNewUser(d, user)) && NoEmptyRow(rows)
    ensures ReadUsers(SaveNewUser(d, user)) ==
            NotificationStore.Register(Loaded(rows), user, UserData(|rows| + 1, user, [], []))
    ensures Readable(d) ==> ReadUsers(d) == Loaded(rows)
  {
    WrittenReadBack(d, rows);
    NewUserWritten(d, rows, user);
    StoredIs(SaveNewUser(d, user), rows + [[user]]);
    NewUserLines(rows, user);
    LoadedNewcomer(rows, user);
  }

  lemma StoredIs(d: DiskState, rows: seq<seq<string>>)
    requires OnDisk(d, rows) && rows != []
    ensures d == Stored(FileText(rows, SPLIT))
  {
  }

  lemma NewUserLines(rows: seq<seq<string>>, user: string)
    requires GoodRows(rows) && SafeField(user, SPLIT)
    ensures
      var d := Stored(FileText(rows + [[user]], SPLIT));
      Readable(d) && NoEmptyRow(rows + [[user]]) && ReadUsers(d) == Loaded(rows + [[user]])
  {
    GoodRowsSafe(rows);
    forall k | 0 <= k <= |rows| ensures SafeRow((rows + [[user]])[k], SPLIT) {
      assert k < |rows| ==> SafeRow(rows[k], SPLIT);
    }
    SafeLines(rows + [[user]]);
  }

  lemma LoadedNewcomer(rows: seq<seq<string>>, user: string)
    requires NoEmptyRow(rows)
    ensures NoEmptyRow(rows + [[user]])
    ensures Loaded(rows + [[user]]) ==
            NotificationStore.Register(Loaded(rows), user, UserData(|rows| + 1, user, [], []))
  {
    var after := rows + [[user]];
    assert after[..|after| - 1] == rows;
    assert [user][1..] == [];
  }

  lemma LoadedExtendedUser(id: int, row: seq<string>, follower: string)
    requires row != []
    ensures LoadedUser(id, row + [follower]) == AddedFollower(LoadedUser(id, row), follower)
  {
    var longer := (row + [follower])[1..];
    assert longer == row[1..] + [follower];
    assert longer[..|longer| - 1] == row[1..];
  }

  function WithFollower(users: Table, user: string, follower: string): Table {
    if user in users then users[user := AddedFollower(users[user], follower)] else users
  }

  lemma ExtendedStep(front: Table, id: int, row: seq<string>, user: string, follower: string)
    requires GoodRow(row) && row[0] !in front
    ensures
      var row' := if row[0] == user then row + [follower] else row;
      NotificationStore.Register(WithFollower(front, user, follower), row[0], LoadedUser(id, row')) ==
      WithFollower(NotificationStore.Register(front, row[0], LoadedUser(id, row)), user, follower)
  {
    if row[0] == user {
      LoadedExtendedUser(id, row, follower);
    }
  }

  lemma ExtendedFront(rows: seq<seq<string>>, user: string, follower: string)
    requires rows != []
    ensures
      var after := ExtendedAll(rows, 0, user, [follower]);
      |after| == |rows| && after[..|after| - 1] == ExtendedAll(rows[..|rows| - 1], 0, user, [follower])
  {
  }

  /** Extending the row of a user, and loading, is loading and adding the follower. */
  lemma {:induction false} LoadedExtended(rows: seq<seq<string>>, user: string, follower: string)
    requires GoodRows(rows)
    ensures NoEmptyRow(rows) && NoEmptyRow(ExtendedAll(rows, 0, user, [follower]))
    ensures Loaded(ExtendedAll(rows, 0, user, [follower])) == WithFollower(Loaded(rows), user, follower)
  {
    GoodRowsSafe(rows);
    if rows != [] {
      var front, row := rows[..|rows| - 1], rows[|rows| - 1];
      var after := ExtendedAll(rows, 0, user, [follower]);
      LoadedExtended(front, user, follower);
      ExtendedFront(rows, user, follower);
      ExtendedRow(rows, user, follower, |rows| - 1);
      NotInFront(rows);
      ExtendedStep(Loaded(front), |rows|, row, user, follower);
    }
  }

  lemma NotInFront(rows: seq<seq<string>>)
    requires rows != [] && GoodRows(rows)
    ensures NoEmptyRow(rows) && rows[|rows| - 1][0] !in Loaded(rows[..|rows| - 1])
  {
    LoadedMatches(rows[..|rows| - 1]);
    assert !HasRow(rows[..|rows| - 1], rows[|rows| - 1][0]);
  }

  lemma ExtendedSafe(rows: seq<seq<string>>, user: string, follower: string)
    requires GoodRows(rows) && SafeField(follower, SPLIT)
    ensures SafeRows(ExtendedAll(rows, 0, user, [follower]), SPLIT)
  {
    forall k | 0 <= k < |rows| ensures SafeRow(ExtendedAll(rows, 0, user, [follower])[k], SPLIT) {
      ExtendedRow(rows, user, follower, k);
      assert SafeRow(rows[k], SPLIT);
    }
  }

  /** Storing a follower adds it to what is read, if the file has the user; it changes no table without rows. */
  lemma FollowReadBack(d: DiskState, rows: seq<seq<string>>, user: string, follower: string)
    requires GoodRows(rows) && Written(d, rows) && SafeField(follower, SPLIT)
    ensures rows == [] ==> SaveNewFollower(d, user, follower) == Stored("")
    ensures rows != [] ==> Readable(d) && Readable(SaveNewFollower(d, user, follower))
    ensures Readable(SaveNewFollower(d, user, follower)) ==>
      Readable(d) && ReadUsers(SaveNewFollower(d, user, follower)) == WithFollower(ReadUsers(d), user, follower)
  {
    EmptyLine();
    if rows != [] {
      ReadBack(d, rows);
      FollowOnDisk(d, rows, user, follower);
      ExtendedSafe(rows, user, follower);
      SafeLines(ExtendedAll(rows, 0, user, [follower]));
      LoadedExtended(rows, user, follower);
    }
  }

  /** A follow leaves a file that the next start can read exactly if there was one that it could read. */
  lemma ReadableExactly(d: DiskState, rows: seq<seq<string>>, user: string, follower: string)
    requires GoodRows(rows) && Written(d, rows) && SafeField(follower, SPLIT)
    ensures Readable(SaveNewFollower(d, user, follower)) <==> d.Stored? && Readable(d)
  {
    EmptyLine();
    FollowReadBack(d, rows, user, follower);
  }

  // ----- a table in memory, and a file that may not agree with it -----

  /** The same users; the followers of each are the same but perhaps for one of one user. */
  ghost predicate SameFollowersBut(a: Table, b: Table, user: string, follower: string) {
    && a.Keys == b.Keys
    && forall v, x :: v in a && (v, x) != (user, follower) ==> (x in a[v].followers <==> x in b[v].followers)
  }

  ghost predicate SameTable(a: Table, b: Table) {
    a.Keys == b.Keys && forall v, x :: v in a ==> (x in a[v].followers <==> x in b[v].followers)
  }

  /** Reading the file gives the users in memory, with the same sets of followers. */
  ghost predicate Agrees(users: Table, d: DiskState) {
    Readable(d) && SameTable(users, ReadUsers(d))
  }

  lemma AddedIs(u: UserData, follower: string)
    requires u.username != follower
    ensures forall x :: x in AddedFollower(u, follower).followers <==> x in u.followers || x == follower
  {
    SortedSame(u.followers);
  }

  function Newcomer(user: string): UserData {
    UserData(0, user, [], [])
  }

  /** The followers of everybody are the same lists. */
  predicate EqualFollowers(a: Table, b: Table) {
    a.Keys == b.Keys && forall v :: v in a ==> a[v].followers == b[v].followers
  }

  lemma SameTableOf(a: Table, b: Table, a': Table, b': Table)
    requires EqualFollowers(a, a') && EqualFollowers(b, b') && SameTable(a, b)
    ensures SameTable(a', b')
  {
    forall v, x | v in a' ensures x in a'[v].followers <==> x in b'[v].followers {
      assert v in a && v in b;
      assert x in a[v].followers <==> x in b[v].followers;
    }
  }

  lemma NewUserTables(a: Table, b: Table, user: string, x: UserData, y: UserData)
    requires user !in a && x.followers == [] && y.followers == []
    ensures SameTable(a[user := x], NotificationStore.Register(b, user, y)) <==>
            SameTable(a[user := Newcomer(user)], NotificationStore.Register(b, user, Newcomer(user)))
  {
    var a1, b1 := a[user := x], NotificationStore.Register(b, user, y);
    var a2, b2 := a[user := Newcomer(user)], NotificationStore.Register(b, user, Newcomer(user));
    if SameTable(a1, b1) {
      SameTableOf(a1, b1, a2, b2);
    }
    if SameTable(a2, b2) {
      SameTableOf(a2, b2, a1, b1);
    }
  }

  lemma NewInBoth(a: Table, b: Table, user: string)
    requires user !in a && user !in b
    ensures SameTable(a[user := Newcomer(user)], b[user := Newcomer(user)]) <==> SameTable(a, b)
  {
    var a', b' := a[user := Newcomer(user)], b[user := Newcomer(user)];
    assert a.Keys == a'.Keys - {user} && b.Keys == b'.Keys - {user};
    if SameTable(a', b') {
      forall v, x | v in a ensures v in b && (x in a[v].followers <==> x in b[v].followers) {
        assert v in a' && a'[v] == a[v];
        assert x in a'[v].followers <==> x in b'[v].followers;
      }
      assert a.Keys == b.Keys;
    }
    if SameTable(a, b) {
      assert a'.Keys == b'.Keys;
      forall v, x | v in a' ensures x in a'[v].followers <==> x in b'[v].followers {
        assert v != user ==> v in a && v in b && a'[v] == a[v] && b'[v] == b[v];
      }
    }
  }

  /** On a new user, memory and file agree afterwards exactly if they agreed on everybody else. */
  lemma NewUserAgreesExactly(users: Table, d: DiskState, rows: seq<seq<string>>, user: string, session: Session)
    requires GoodRows(rows) && Written(d, rows) && SafeField(user, SPLIT) && user !in users
    ensures NoEmptyRow(rows)
    ensures Agrees(StartSession(users, user, session), SaveNewUser(d, user)) <==>
            SameTable(users[user := Newcomer(user)], NotificationStore.Register(Loaded(rows), user, Newcomer(user)))
    ensures Readable(d) && user !in ReadUsers(d) ==>
      (Agrees(StartSession(users, user, session), SaveNewUser(d, user)) <==> Agrees(users, d))
    ensures !Readable(d) ==> (Agrees(StartSession(users, user, session), SaveNewUser(d, user)) <==> users == map[])
  {
    NewUserReadBack(d, rows, user);
    WrittenReadBack(d, rows);
    var x := AddedSession(UserData(|users|, user, [], []), session);
    NewUserTables(users, Loaded(rows), user, x, UserData(|rows| + 1, user, [], []));
    assert StartSession(users, user, session) == users[user := x];
    if user !in Loaded(rows) {
      NewInBoth(users, Loaded(rows), user);
    }
    if !Readable(d) {
      NoRows(users, rows);
    }
  }

  lemma NoRows(users: Table, rows: seq<seq<string>>)
    requires rows == []
    ensures Loaded(rows) == map[] && (SameTable(users, Loaded(rows)) <==> users == map[])
  {
    assert SameTable(users, map[]) ==> users.Keys == {};
    assert users.Keys == {} ==> users == map[];
  }

  lemma FollowTables(a: Table, b: Table, user: string, follower: string)
    requires AllOk(a) && AllOk(b) && Follows(a, follower, user)
    ensures SameTable(Follow(a, follower, user), WithFollower(b, user, follower)) <==>
            SameFollowersBut(a, b, user, follower)
  {
    AddedIs(a[user], follower);
    if user in b {
      AddedIs(b[user], follower);
    }
    var a', b' := Follow(a, follower, user), WithFollower(b, user, follower);
    assert a'.Keys == a.Keys && b'.Keys == b.Keys;
    assert forall v, x :: v in a && (v, x) != (user, follower) ==> (x in a'[v].followers <==> x in a[v].followers);
    assert forall v, x :: v in b && (v, x) != (user, follower) ==> (x in b'[v].followers <==> x in b[v].followers);
    assert user in b ==> follower in b'[user].followers;
  }

  lemma ButOneIsSame(a: Table, b: Table, user: string, follower: string)
    requires user in a && follower !in a[user].followers
    requires user in b ==> follower !in b[user].followers
    ensures SameFollowersBut(a, b, user, follower) <==> SameTable(a, b)
  {
  }

  /** On a follow, they agree afterwards exactly if they agreed on everything else. */
  lemma FollowAgreesExactly(users: Table, d: DiskState, rows: seq<seq<string>>, user: string, follower: string)
    requires GoodRows(rows) && Written(d, rows) && SafeField(follower, SPLIT) && Readable(d)
    requires AllOk(users) && Follows(users, follower, user)
    ensures Agrees(Follow(users, follower, user), SaveNewFollower(d, user, follower)) <==>
            SameFollowersBut(users, ReadUsers(d), user, follower)
    ensures !(user in ReadUsers(d) && follower in ReadUsers(d)[user].followers) ==>
      (Agrees(Follow(users, follower, user), SaveNewFollower(d, user, follower)) <==> Agrees(users, d))
  {
    var file := ReadUsers(d);
    ReadableExactly(d, rows, user, follower);
    WrittenReadBack(d, rows);
    ReadUsersNamed(d, rows);
    if d.Stored? {
      FollowReadBack(d, rows, user, follower);
      FollowTables(users, file, user, follower);
    }
    if !(user in file && follower in file[user].followers) {
      ButOneIsSame(users, file, user, follower);
    }
  }

  lemma ReadUsersNamed(d: DiskState, rows: seq<seq<string>>)
    requires GoodRows(rows) && OnDisk(d, rows)
    ensures Readable(d) && AllOk(ReadUsers(d))
  {
    ReadBack(d, rows);
    LoadedMatches(rows);
  }
}
