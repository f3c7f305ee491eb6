/** The text the leader sends to its backups for the user table, and how a backup reads it. */
module ProfileCodec {
  import opened InputStream
  import opened StringUtils
  import opened Users
  import opened Profiles
  import NotificationStore
  import StoreCodec

  function UserLine(name: string, u: UserData): string {
    name + " " + UserText(u)
  }

  function ProfileLines(users: Table, order: seq<string>): seq<string>
    requires forall u :: u in order ==> u in users
  {
    StoreCodec.Lines(UserLine, users, order)
  }

  /** ProfileManager::serialize, for an order in which the unordered map is visited. */
  function ProfileText(users: Table, order: seq<string>): string
    requires forall u :: u in order ==> u in users
  {
    Terminated(ProfileLines(users, order), '\n')
  }

  /** `serialize` may print this text for the table. */
  ghost predicate Prints(users: Table, text: string) {
    exists order :: StoreCodec.Enumerates(order, users.Keys) && text == ProfileText(users, order)
  }

  /** Empty lines and users that are not valid are skipped; a second line for a name is ignored. */
  function AddLine(users: Table, line: string): Read<Table> {
    if line == "" then Got(users, "")
    else
      var pair := SplitFirst(line, " ");
      var (user, _) :- ParseUser(pair.1, NEW_USER);
      Got(if IsValid(user) then NotificationStore.Register(users, pair.0, user) else users, "")
  }

  function ParseProfileLines(lines: seq<string>): Read<Table> {
    StoreCodec.FoldLines(AddLine, map[], lines)
  }

  /** ProfileManager::deserialize; `Failed` is the exception of `stoi`. */
  function ParseProfile(raw: string): Read<Table> {
    ParseProfileLines(Parts(raw, "\n"))
  }

  predicate SafeTable(users: Table) {
    forall u :: u in users ==> PlainName(u) && SafeUser(users[u])
  }

  /** What a backup keeps of a table: the users with a positive id, without their sessions. */
  function Kept(users: Table): Table {
    map u | u in users && users[u].id > 0 :: users[u].(sessions := [])
  }

  function KeptOf(users: Table, order: seq<string>): Table
    requires forall u :: u in order ==> u in users
  {
    map u | u in order && users[u].id > 0 :: users[u].(sessions := [])
  }

  lemma UserLineBack(users: Table, name: string, u: UserData)
    requires PlainName(name) && SafeUser(u)
    ensures UserLine(name, u) != ""
    ensures AddLine(users, UserLine(name, u)) ==
            Got(if u.id > 0 then NotificationStore.Register(users, name, u.(sessions := [])) else users, "")
  {
    SplitFirstAtChar(name, ' ', UserText(u));
    UserBack(u);
  }

  lemma LastLineBack(users: Table, front: seq<string>, name: string)
    requires SafeTable(users) && (forall u :: u in front ==> u in users) && name in users && name !in front
    ensures AddLine(KeptOf(users, front), UserLine(name, users[name])) == Got(KeptOf(users, front + [name]), "")
  {
    UserLineBack(KeptOf(users, front), name, users[name]);
    KeptSnoc(users, front, name);
  }

  lemma {:induction false} ProfileLinesBack(users: Table, order: seq<string>)
    requires SafeTable(users) && (forall u :: u in order ==> u in users)
    requires forall i, j :: 0 <= i < j < |order| ==> order[i] != order[j]
    ensures ParseProfileLines(ProfileLines(users, order)) == Got(KeptOf(users, order), "")
  {
    if order != [] {
      var front, name := order[..|order| - 1], order[|order| - 1];
      ProfileLinesBack(users, front);
      var lines := ProfileLines(users, order);
      assert lines[..|lines| - 1] == ProfileLines(users, front);
      assert lines[|lines| - 1] == UserLine(name, users[name]);
      LastLineBack(users, front, name);
      assert front + [name] == order;
    }
  }

  lemma KeptSnoc(users: Table, front: seq<string>, name: string)
    requires (forall u :: u in front ==> u in users) && name in users && name !in front
    ensures KeptOf(users, front + [name]) ==
            if users[name].id > 0 then NotificationStore.Register(KeptOf(users, front), name, users[name].(sessions := []))
            else KeptOf(users, front)
  {
  }

  /** The text of a user has no newline and no NUL. */
  lemma UserTextClean(u: UserData)
    requires SafeUser(u)
    ensures '\n' !in UserText(u) && '\0' !in UserText(u)
  {
    IntStringShape(u.id);
    IntStringShape(|u.followers|);
    ListsTextClean(u);
  }

  lemma ListsTextClean(u: UserData)
    requires SafeUser(u)
    ensures '\n' !in ListsText(u) && '\0' !in ListsText(u)
  {
    IntStringShape(|u.sessions|);
    JoinedClean(u.followers, ",", '\n');
    JoinedClean(u.followers, ",", '\0');
    SessionsClean(u);
  }

  lemma SessionTextClean(s: Session)
    requires '\n' !in s.username && '\0' !in s.username
    ensures '\n' !in SessionText(s) && '\0' !in SessionText(s)
  {
    IntStringShape(s.threadId);
  }

  lemma UserLineClean(name: string, u: UserData)
    requires PlainName(name) && SafeUser(u)
    ensures '\n' !in UserLine(name, u) && '\0' !in UserLine(name, u)
  {
    UserTextClean(u);
  }

  lemma SessionsClean(u: UserData)
    requires SafeUser(u)
    ensures '\n' !in Joined(Mapped(u.sessions, SessionText), ",") && '\0' !in Joined(Mapped(u.sessions, SessionText), ",")
  {
    var texts := Mapped(u.sessions, SessionText);
    forall k | 0 <= k < |texts| ensures '\n' !in texts[k] && '\0' !in texts[k] {
      SessionTextClean(u.sessions[k]);
    }
    JoinedClean(texts, ",", '\n');
    JoinedClean(texts, ",", '\0');
  }

  lemma ProfileLinesClean(users: Table, order: seq<string>)
    requires SafeTable(users) && (forall u :: u in order ==> u in users)
    ensures forall k :: 0 <= k < |order| ==>
      '\n' !in ProfileLines(users, order)[k] && '\0' !in ProfileLines(users, order)[k]
  {
    forall k | 0 <= k < |order|
      ensures '\n' !in ProfileLines(users, order)[k] && '\0' !in ProfileLines(users, order)[k]
    {
      assert order[k] in order;
      UserLineClean(order[k], users[order[k]]);
    }
  }

  /** The text has no NUL, so a C string carries all of it. */
  lemma ProfileTextClean(users: Table, order: seq<string>)
    requires SafeTable(users) && (forall u :: u in order ==> u in users)
    ensures '\0' !in ProfileText(users, order)
  {
    ProfileLinesClean(users, order);
    TerminatedClean(ProfileLines(users, order), '\n', '\0');
  }

  /** What a backup reads: exactly the users with a positive id, without sessions, for every order. */
  lemma ProfileBack(users: Table, order: seq<string>)
    requires SafeTable(users) && StoreCodec.Enumerates(order, users.Keys)
    ensures ParseProfile(ProfileText(users, order)) == Got(Kept(users), "")
  {
    var lines := ProfileLines(users, order);
    ProfileLinesClean(users, order);
    SplitTerminated(lines, '\n');
    ProfileLinesBack(users, order);
    assert (lines + [""])[..|lines|] == lines;
    assert KeptOf(users, order) == Kept(users);
  }

  /** The trip keeps the table exactly if every id is positive and nobody has a session. */
  lemma WholeExactly(users: Table, order: seq<string>)
    requires SafeTable(users) && StoreCodec.Enumerates(order, users.Keys)
    ensures ParseProfile(ProfileText(users, order)) == Got(users, "")
            <==> forall u :: u in users ==> users[u].id > 0 && users[u].sessions == []
  {
    ProfileBack(users, order);
    if forall u :: u in users ==> users[u].id > 0 && users[u].sessions == [] {
      assert Kept(users) == users;
    } else {
      var u :| u in users && !(users[u].id > 0 && users[u].sessions == []);
      assert u in Kept(users) ==> Kept(users)[u].sessions == [];
    }
  }

  /** The first user of an empty table gets the id 0, and is unknown to every backup. */
  lemma FirstUserDropped(username: string, session: Session)
    ensures
      var users := StartSession(map[], username, session);
      username in users && Kept(users) == map[]
  {
  }
}
