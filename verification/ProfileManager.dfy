/**
 * The classes ProfilePersistency and ProfileManager.  Every method is proved to do to the table, and to
 * the file, what the function of the same name does in Profiles.
 */
module ProfileManagers {
  import opened InputStream
  import opened StringUtils
  import opened CsvText
  import opened CsvFiles
  import opened Users
  import opened Profiles
  import opened ProfileCodec
  import NotificationStore
  import StoreCodec

  function StateOf(disk: Disk): DiskState
    reads disk
  {
    if disk.present then Stored(disk.content) else Absent
  }

  ghost function ViewOf(users: map<string, User>): Table
    reads users.Values
  {
    map u | u in users :: users[u].Data()
  }

  /** No two names share a user object. */
  ghost predicate Separate(users: map<string, User>) {
    forall u, v :: u in users && v in users && u != v ==> users[u] != users[v]
  }

  lemma ProfileTextSnoc(users: Table, order: seq<string>, name: string)
    requires name in users && forall u :: u in order ==> u in users
    ensures ProfileText(users, order + [name]) ==
            ProfileText(users, order) + (name + " " + UserText(users[name]) + "\n")
  {
    StoreCodec.LinesSnoc(UserLine, users, order, name);
    AppendedEnd(ProfileText(users, order), UserLine(name, users[name]));
  }

  lemma AppendedEnd(s: string, line: string)
    ensures s + line + "\n" == s + (line + "\n")
  {
  }

  class ProfilePersistency {
    const disk: Disk
    const m_csvFile_r: CSVReader
    const m_csvFile_w: CSVWriter

    constructor (disk: Disk)
      ensures this.disk == disk && m_csvFile_r.m_file.disk == disk && m_csvFile_w.m_file.disk == disk
      ensures fresh(m_csvFile_r) && fresh(m_csvFile_r.m_file) && fresh(m_csvFile_w) && fresh(m_csvFile_w.m_file)
    {
      this.disk := disk;
      m_csvFile_r := new CSVReader(disk);
      m_csvFile_w := new CSVWriter(disk);
    }

    static method LoadRow(row: seq<string>, userId: int) returns (user: User)
      requires row != []
      ensures fresh(user) && user.Data() == LoadedUser(userId, row)
    {
      var followers := row[1..];
      user := new User.Named(userId, row[0]);
      for i := 0 to |followers|
        invariant fresh(user)
        invariant user.Data() == WithFollowers(UserData(userId, row[0], [], []), followers[..i])
      {
        assert followers[..i + 1][..i] == followers[..i];
        var _ := user.AddFollower(followers[i]);
      }
      assert followers[..|followers|] == followers;
    }

    static method LoadRows(rows: seq<seq<string>>) returns (users: map<string, User>)
      requires NoEmptyRow(rows)
      ensures Separate(users) && (forall u :: u in users ==> fresh(users[u]))
      ensures ViewOf(users) == Loaded(rows)
    {
      users := map[];
      var userId := 1;
      for i := 0 to |rows|
        invariant userId == i + 1
        invariant Separate(users) && forall u :: u in users ==> fresh(users[u])
        invariant ViewOf(users) == Loaded(rows[..i])
      {
        assert rows[..i + 1][..i] == rows[..i];
        var user := LoadRow(rows[i], userId);
        var username := rows[i][0];
        if username !in users {
          users := users[username := user];
        }
        userId := userId + 1;
      }
      assert rows[..|rows|] == rows;
    }

    method ReadUsers() returns (users: map<string, User>)
      requires m_csvFile_r.m_file.disk == disk && Readable(StateOf(disk))
      modifies m_csvFile_r, m_csvFile_r.m_file
      ensures Separate(users) && forall u :: u in users ==> fresh(users[u])
      ensures ViewOf(users) == Profiles.ReadUsers(old(StateOf(disk)))
    {
      var _ := m_csvFile_r.Open(SPLIT);
      if disk.present {
        ReadableRows(disk.content);
      }
      var usersRaw := m_csvFile_r.ReadAll();
      users := LoadRows(usersRaw);
      m_csvFile_r.Close();
    }

    method SaveNewUser(user: string)
      requires m_csvFile_w.m_file.disk == disk
      modifies m_csvFile_w, m_csvFile_w.m_file, disk
      ensures StateOf(disk) == Profiles.SaveNewUser(old(StateOf(disk)), user)
    {
      var _ := m_csvFile_w.Open(SPLIT);
      var myUser := [user];
      var _ := m_csvFile_w.Append(myUser);
      m_csvFile_w.m_file.Close();
    }

    method SaveNewFollower(user: string, follower: string)
      requires m_csvFile_w.m_file.disk == disk && Formattable(ContentOf(StateOf(disk)))
      modifies m_csvFile_w, m_csvFile_w.m_file, disk
      ensures StateOf(disk) == Profiles.SaveNewFollower(old(StateOf(disk)), user, follower)
    {
      var _ := m_csvFile_w.Open(SPLIT);
      var followers := [follower];
      var _ := m_csvFile_w.AppendToLine(0, user, followers);
      m_csvFile_w.m_file.Close();
    }
  }

  class ProfileManager {
    const disk: Disk                // the file Users.db
    var m_users: map<string, User>
    ghost var updates: seq<Table>   // the table at every onUpdateCallback

    ghost predicate Valid()
      reads this
    {
      Separate(m_users)
    }

    ghost function View(): Table
      reads this, m_users.Values
    {
      ViewOf(m_users)
    }

    constructor (disk: Disk)
      ensures Valid() && View() == map[] && updates == [] && this.disk == disk
    {
      this.disk := disk;
      m_users := map[];
      updates := [];
    }

    /** Only the object of one name has changed. */
    twostate lemma OneUserChanged(name: string)
      requires old(Valid()) && m_users == old(m_users) && name in m_users
      requires forall u :: u in m_users && m_users[u] != m_users[name] ==> m_users[u].Data() == old(m_users[u].Data())
      ensures Valid() && name in old(View())
      ensures View() == old(View())[name := m_users[name].Data()]
    {
    }

    ghost method OnUpdate()
      modifies this`updates
      ensures updates == old(updates) + [View()]
    {
      updates := updates + [View()];
    }

    method LoadUsers()
      requires Valid() && Readable(StateOf(disk))
      modifies this`m_users
      ensures Valid() && (forall u :: u in m_users ==> fresh(m_users[u]))
      ensures View() == Profiles.ReadUsers(old(StateOf(disk)))
    {
      var db := new ProfilePersistency(disk);
      m_users := db.ReadUsers();
    }

    method AddFollowerTo(userToFollow: string, follower: string) returns (success: bool)
      requires Valid() && userToFollow in m_users
      modifies m_users.Values
      ensures View() == old(View())[userToFollow := AddedFollower(old(View())[userToFollow], follower)]
      ensures success == CanFollow(old(View())[userToFollow], follower)
    {
      var user := m_users[userToFollow];
      success := user.AddFollower(follower);
      OneUserChanged(userToFollow);
    }

    method StoreFollower(user: string, follower: string)
      requires Formattable(ContentOf(StateOf(disk)))
      modifies disk
      ensures StateOf(disk) == Profiles.SaveNewFollower(old(StateOf(disk)), user, follower)
    {
      var db := new ProfilePersistency(disk);
      db.SaveNewFollower(user, follower);
    }

    method StoreUser(user: string)
      modifies disk
      ensures StateOf(disk) == Profiles.SaveNewUser(old(StateOf(disk)), user)
    {
      var db := new ProfilePersistency(disk);
      db.SaveNewUser(user);
    }

    method Follow(follower: string, userToFollow: string) returns (success: bool)
      requires Valid() && Formattable(ContentOf(StateOf(disk)))
      modifies this`updates, disk, m_users.Values
      ensures Valid()
      ensures success == Follows(old(View()), follower, userToFollow)
      ensures View() == Profiles.Follow(old(View()), follower, userToFollow)
      ensures StateOf(disk) ==
              if success then Profiles.SaveNewFollower(old(StateOf(disk)), userToFollow, follower) else old(StateOf(disk))
      ensures updates == old(updates) + if success then [View()] else []
    {
      success := false;
      if follower in m_users && userToFollow in m_users {
        success := AddFollowerTo(userToFollow, follower);
        if success {
          StoreFollower(userToFollow, follower);
          OnUpdate();
        }
      }
    }

    method AddSessionTo(username: string, session: Session) returns (success: bool)
      requires Valid() && username in m_users
      modifies m_users.Values
      ensures View() == old(View())[username := AddedSession(old(View())[username], session)]
      ensures success == (|old(View())[username].sessions| < 2)
      ensures View() == old(View())[username := old(View())[username].(
        sessions := old(View())[username].sessions + if success then [session] else [])]
    {
      var user := m_users[username];
      success := user.AddSession(session);
      OneUserChanged(username);
    }

    twostate lemma UserAdded(name: string)
      requires old(Valid()) && name !in old(m_users) && name in m_users && m_users == old(m_users)[name := m_users[name]]
      requires forall u :: u in old(m_users) ==> m_users[u] != m_users[name] && unchanged(m_users[u])
      ensures Valid() && View() == old(View())[name := m_users[name].Data()]
    {
    }

    lemma SizeOfView()
      ensures |View()| == |m_users| && View().Keys == m_users.Keys
    {
      assert View().Keys == m_users.Keys;
      assert |View().Keys| == |View()| && |m_users.Keys| == |m_users|;
    }

    method AddUser(username: string, session: Session)
      requires Valid() && username !in m_users
      modifies this`m_users
      ensures Valid()
      ensures View() == Profiles.StartSession(old(View()), username, session)
      ensures View() == old(View())[username := UserData(|old(View())|, username, [], [session])]
    {
      var newUser := new User.Named(|m_users|, username);
      var _ := newUser.AddSession(session);
      assert newUser.m_sessions == [session];
      SizeOfView();
      m_users := m_users[username := newUser];
      UserAdded(username);
    }

    method StartSession(username: string, session: Session) returns (success: bool)
      requires Valid()
      modifies this`m_users, this`updates, disk, m_users.Values
      ensures Valid()
      ensures View() == Profiles.StartSession(old(View()), username, session)
      ensures success == (username in old(View()) ==> |old(View())[username].sessions| < 2)
      ensures username !in old(View()) ==>
        View() == old(View())[username := UserData(|old(View())|, username, [], [session])]
      ensures username in old(View()) ==>
        View() == old(View())[username := old(View())[username].(
          sessions := old(View())[username].sessions + if success then [session] else [])]
      ensures StateOf(disk) ==
              if username in old(View()) then old(StateOf(disk)) else Profiles.SaveNewUser(old(StateOf(disk)), username)
      ensures updates == old(updates) + if username in old(View()) then [] else [View()]
    {
      if username in m_users {
        success := AddSessionTo(username, session);
      } else {
        AddUser(username, session);
        StoreUser(username);
        OnUpdate();
        success := true;
      }
    }

    method CloseSession(username: string, id: nat)
      requires Valid()
      modifies m_users.Values
      ensures Valid() && View() == Profiles.CloseSession(old(View()), username, id)
    {
      if username in m_users {
        var user := m_users[username];
        user.RemoveSession(id);
        OneUserChanged(username);
      }
    }

    /** The users are values in the original: assigning the map copies them. */
    static method CopyUsers(source: map<string, User>) returns (users: map<string, User>)
      ensures Separate(users) && forall u :: u in users ==> fresh(users[u])
      ensures ViewOf(users) == ViewOf(source)
    {
      var todo := source.Keys;
      users := map[];
      while todo != {}
        invariant todo <= source.Keys && users.Keys == source.Keys - todo
        invariant Separate(users) && forall u :: u in users ==> fresh(users[u])
        invariant forall u :: u in users ==> users[u].Data() == source[u].Data()
      {
        var name :| name in todo;
        var copy := new User.Copy(source[name]);
        users := users[name := copy];
        todo := todo - {name};
      }
    }

    method Update(manager: ProfileManager)
      requires Valid() && manager.Valid()
      modifies this`m_users
      ensures Valid() && View() == old(manager.View())
    {
      var users := CopyUsers(manager.m_users);
      m_users := users;
    }

    /** The unordered map is visited in some order. */
    method Serialize() returns (s: string)
      requires Valid()
      ensures Prints(View(), s)
    {
      s := "";
      ghost var order: seq<string> := [];
      var todo := m_users.Keys;
      ghost var view := View();
      while todo != {}
        invariant todo <= view.Keys && StoreCodec.Enumerates(order, view.Keys - todo)
        invariant s == ProfileText(view, order)
      {
        var name :| name in todo;
        var text := m_users[name].Serialize();
        ProfileTextSnoc(view, order, name);
        s := s + (name + " " + text + "\n");
        StoreCodec.EnumeratesMore(order, view.Keys, todo, name);
        order := order + [name];
        todo := todo - {name};
      }
      assert view.Keys - todo == view.Keys;
    }

    static method DeserializeLine(users: map<string, User>, rawUser: string) returns (ok: bool, after: map<string, User>)
      requires Separate(users)
      ensures ok <==> AddLine(ViewOf(users), rawUser).Got?
      ensures ok ==> Separate(after) && ViewOf(after) == AddLine(ViewOf(users), rawUser).value
      ensures forall u :: u in after ==> fresh(after[u]) || (u in users && after[u] == users[u])
    {
      after := users;
      if rawUser == "" {
        return true, after;
      }
      var pair := SplitFirst(rawUser, " ");
      var user := new User();
      ok := user.Deserialize(pair.1);
      if ok && user.m_id > 0 && user.m_username != "" && pair.0 !in after {
        after := after[pair.0 := user];
      }
    }

    static method DeserializeUsers(rawUsers: seq<string>) returns (ok: bool, users: map<string, User>)
      ensures ok ==> Separate(users) && ParseProfileLines(rawUsers) == Got(ViewOf(users), "")
      ensures !ok ==> ParseProfileLines(rawUsers).Failed?
    {
      users := map[];
      for i := 0 to |rawUsers|
        invariant Separate(users)
        invariant ParseProfileLines(rawUsers[..i]) == Got(ViewOf(users), "")
      {
        assert rawUsers[..i + 1][..i] == rawUsers[..i];
        ghost var before := ViewOf(users);
        ok, users := DeserializeLine(users, rawUsers[i]);
        assert ParseProfileLines(rawUsers[..i + 1]) == AddLine(before, rawUsers[i]);
        if !ok {
          StoreCodec.FoldFails(AddLine, map[], rawUsers, i + 1);
          return;
        }
      }
      assert rawUsers[..|rawUsers|] == rawUsers;
      ok := true;
    }

    /** `ok` is false when `stoi` throws; the table is then as it was. */
    method Deserialize(raw: string) returns (ok: bool)
      requires Valid()
      modifies this`m_users
      ensures Valid() && (ok <==> ParseProfile(raw).Got?)
      ensures View() == if ok then ParseProfile(raw).value else old(View())
    {
      var rawUsers := Split(raw, "\n");
      var users;
      ok, users := DeserializeUsers(rawUsers);
      if ok {
        m_users := users;
      }
    }
  }
}
