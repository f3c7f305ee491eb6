/** One user's followers and sessions, src/server/profile/User.cpp. */
module Users {
  import opened Sequences
  import opened Decimal
  import opened InputStream
  import opened StringUtils

  datatype Session = Session(threadId: nat, username: string)

  datatype UserData = UserData(id: int, username: string, followers: seq<string>, sessions: seq<Session>)

  const NEW_USER := UserData(-1, "", [], [])
  const MAX_SESSIONS_PER_USER: nat := 2

  // ----- the order of std::string -----

  predicate Less(a: string, b: string) {
    b != "" && (a == "" || a[0] < b[0] || (a[0] == b[0] && Less(a[1..], b[1..])))
  }

  lemma {:induction false} LessTotal(a: string, b: string)
    ensures Less(a, b) || Less(b, a) || a == b
  {
    if a != "" && b != "" && a[0] == b[0] {
      LessTotal(a[1..], b[1..]);
      assert a == [a[0]] + a[1..] && b == [b[0]] + b[1..];
    }
  }

  lemma {:induction false} LessTransitive(a: string, b: string, c: string)
    requires Less(a, b) && Less(b, c)
    ensures Less(a, c)
  {
    if a != "" && a[0] == b[0] == c[0] {
      LessTransitive(a[1..], b[1..], c[1..]);
    }
  }

  lemma {:induction false} LessIrreflexive(a: string)
    ensures !Less(a, a)
  {
    if a != "" {
      LessIrreflexive(a[1..]);
    }
  }

  /** No element is less than one in front of it. */
  predicate IsSorted(s: seq<string>) {
    forall i, j :: 0 <= i < j < |s| ==> !Less(s[j], s[i])
  }

  function Insert(x: string, s: seq<string>): seq<string> {
    if s == [] then [x] else if Less(x, s[0]) then [x] + s else [s[0]] + Insert(x, s[1..])
  }

  /** What `list::sort` makes of a list of strings. */
  function Sorted(s: seq<string>): seq<string> {
    if s == [] then [] else Insert(s[0], Sorted(s[1..]))
  }

  lemma {:induction false} InsertKeeps(x: string, s: seq<string>)
    ensures multiset(Insert(x, s)) == multiset([x] + s)
  {
    if s != [] && !Less(x, s[0]) {
      InsertKeeps(x, s[1..]);
      assert s == [s[0]] + s[1..];
    }
  }

  lemma NotLessTransitive(a: string, b: string, c: string)
    requires !Less(b, a) && !Less(c, b)
    ensures !Less(c, a)
  {
    if Less(c, a) {
      LessTotal(a, b);
      LessTotal(b, c);
      LessIrreflexive(a);
      LessIrreflexive(b);
      if a != b {
        LessTransitive(c, a, b);
      }
    }
  }

  lemma {:induction false} InsertSorted(x: string, s: seq<string>)
    requires IsSorted(s)
    ensures IsSorted(Insert(x, s))
  {
    if s != [] {
      var r := Insert(x, s);
      if Less(x, s[0]) {
        BeforeAll(x, s);
      } else {
        InsertSorted(x, s[1..]);
        AfterFirst(x, s);
      }
    }
  }

  lemma AfterFirst(x: string, s: seq<string>)
    requires s != [] && IsSorted(s) && !Less(x, s[0])
    ensures forall y :: y in Insert(x, s[1..]) ==> !Less(y, s[0])
  {
    InsertKeeps(x, s[1..]);
    forall y | y in Insert(x, s[1..]) ensures !Less(y, s[0]) {
      assert y in multiset([x] + s[1..]);
      if y != x {
        var j :| 0 <= j < |s[1..]| && s[1..][j] == y;
        assert s[j + 1] == y;
      }
    }
  }

  lemma BeforeAll(x: string, s: seq<string>)
    requires IsSorted(s) && s != [] && Less(x, s[0])
    ensures forall k :: 0 <= k < |s| ==> !Less(s[k], x)
  {
    forall k | 0 <= k < |s| ensures !Less(s[k], x) {
      if Less(s[k], x) {
        LessTransitive(s[k], x, s[0]);
        LessIrreflexive(s[0]);
      }
    }
  }

  /** Sorting gives a sorted list of the same elements. */
  lemma {:induction false} SortedIsSorted(s: seq<string>)
    ensures IsSorted(Sorted(s)) && multiset(Sorted(s)) == multiset(s)
  {
    if s != [] {
      SortedIsSorted(s[1..]);
      InsertSorted(s[0], Sorted(s[1..]));
      InsertKeeps(s[0], Sorted(s[1..]));
      assert s == [s[0]] + s[1..];
    }
  }

  lemma SortedSame(s: seq<string>)
    ensures |Sorted(s)| == |s|
    ensures forall x :: x in Sorted(s) <==> x in s
    ensures NoRepeats(s) ==> NoRepeats(Sorted(s))
  {
    SortedIsSorted(s);
    assert |multiset(Sorted(s))| == |multiset(s)|;
    forall x ensures x in Sorted(s) <==> x in s {
      assert x in Sorted(s) <==> x in multiset(Sorted(s));
    }
    if NoRepeats(s) {
      forall x ensures multiset(Sorted(s))[x] <= 1 {
        OnceEach(s, x);
      }
      FewEach(Sorted(s));
    }
  }

  lemma CountOfTwo(s: seq<string>, i: nat, j: nat)
    requires i < j < |s|
    ensures multiset(s)[s[i]] >= if s[i] == s[j] then 2 else 1
  {
    assert s == s[..j] + s[j..];
    assert s[..j][i] == s[i] && s[j..][0] == s[j];
    assert multiset(s)[s[i]] == multiset(s[..j])[s[i]] + multiset(s[j..])[s[i]];
  }

  lemma FewEach(s: seq<string>)
    requires forall x :: multiset(s)[x] <= 1
    ensures NoRepeats(s)
  {
    forall i, j | 0 <= i < j < |s| ensures s[i] != s[j] {
      CountOfTwo(s, i, j);
    }
  }

  /** `std::binary_search`, by way of `std::lower_bound`. */
  method BinarySearch(s: seq<string>, x: string) returns (found: bool)
    requires IsSorted(s)
    ensures found <==> x in s
  {
    var first, count := 0, |s|;
    while count > 0
      invariant 0 <= first && 0 <= count && first + count <= |s|
      invariant forall k :: 0 <= k < first ==> Less(s[k], x)
      invariant forall k :: first + count <= k < |s| ==> !Less(s[k], x)
    {
      var step := count / 2;
      var it := first + step;
      if Less(s[it], x) {
        LowerPart(s, x, it);
        first := it + 1;
        count := count - (step + 1);
      } else {
        UpperPart(s, x, it);
        count := step;
      }
    }
    found := first < |s| && !Less(x, s[first]);
    if found {
      LessTotal(x, s[first]);
    } else {
      NotFound(s, x, first);
    }
  }

  lemma LowerPart(s: seq<string>, x: string, it: nat)
    requires IsSorted(s) && it < |s| && Less(s[it], x)
    ensures forall k :: 0 <= k <= it ==> Less(s[k], x)
  {
    forall k | 0 <= k < it ensures Less(s[k], x) {
      LessTotal(s[k], s[it]);
      if Less(s[k], s[it]) {
        LessTransitive(s[k], s[it], x);
      }
    }
  }

  lemma UpperPart(s: seq<string>, x: string, it: nat)
    requires IsSorted(s) && it < |s| && !Less(s[it], x)
    ensures forall k :: it <= k < |s| ==> !Less(s[k], x)
  {
    forall k | it < k < |s| ensures !Less(s[k], x) {
      NotLessTransitive(x, s[it], s[k]);
    }
  }

  lemma NotFound(s: seq<string>, x: string, first: nat)
    requires IsSorted(s) && first <= |s|
    requires forall k :: 0 <= k < first ==> Less(s[k], x)
    requires first < |s| ==> Less(x, s[first])
    ensures x !in s
  {
    LessIrreflexive(x);
    if first < |s| {
      forall k | first <= k < |s| ensures s[k] != x {
        assert k > first ==> !Less(s[k], s[first]);
      }
    }
  }

  // ----- what the operations do to a user -----

  predicate CanFollow(u: UserData, follower: string) {
    u.username != follower && follower !in u.followers
  }

  /** A refused follower still leaves the list sorted, unless it is the user. */
  function AddedFollower(u: UserData, follower: string): UserData {
    if u.username == follower then u
    else u.(followers := Sorted(u.followers) + if follower in u.followers then [] else [follower])
  }

  function AddedSession(u: UserData, session: Session): UserData {
    if |u.sessions| < MAX_SESSIONS_PER_USER then u.(sessions := u.sessions + [session]) else u
  }

  /** Only the first and the last session are looked at. */
  function RemovedSession(u: UserData, id: nat): UserData {
    var n := |u.sessions|;
    if n == 0 then u
    else if u.sessions[0].threadId == id then u.(sessions := u.sessions[1..])
    else if u.sessions[n - 1].threadId == id then u.(sessions := u.sessions[..n - 1])
    else u
  }

  predicate DistinctSessions(sessions: seq<Session>) {
    forall i, j :: 0 <= i < j < |sessions| ==> sessions[i].threadId != sessions[j].threadId
  }

  /** Followers are a set that the user is not in, and there are at most two sessions. */
  predicate UserOk(u: UserData) {
    && NoRepeats(u.followers) && u.username !in u.followers
    && |u.sessions| <= 2
  }

  lemma AddFollowerKeeps(u: UserData, follower: string)
    requires UserOk(u)
    ensures UserOk(AddedFollower(u, follower))
    ensures forall x :: x in AddedFollower(u, follower).followers <==>
      x in u.followers || (x == follower && CanFollow(u, follower))
  {
    SortedSame(u.followers);
  }

  function Without(sessions: seq<Session>, id: nat): seq<Session> {
    if sessions == [] then []
    else
      Without(sessions[..|sessions| - 1], id)
      + if sessions[|sessions| - 1].threadId == id then [] else [sessions[|sessions| - 1]]
  }

  lemma {:induction false} WithoutAbsent(sessions: seq<Session>, id: nat)
    requires forall k :: 0 <= k < |sessions| ==> sessions[k].threadId != id
    ensures Without(sessions, id) == sessions
  {
    if sessions != [] {
      WithoutAbsent(sessions[..|sessions| - 1], id);
    }
  }

  /** Looking at both ends finds every session, so exactly the named one goes. */
  lemma RemoveSessionExact(u: UserData, id: nat)
    requires UserOk(u) && DistinctSessions(u.sessions)
    ensures RemovedSession(u, id) == u.(sessions := Without(u.sessions, id))
    ensures UserOk(RemovedSession(u, id)) && DistinctSessions(RemovedSession(u, id).sessions)
  {
    var ss := u.sessions;
    if |ss| == 1 {
      assert ss[..0] == [] && ss == [ss[0]];
    } else if |ss| == 2 {
      assert ss[..1] == [ss[0]] && ss[..1][..0] == [] && ss == [ss[0], ss[1]] && ss[1..] == [ss[1]];
      assert Without(ss[..1], id) == if ss[0].threadId == id then [] else [ss[0]];
    }
  }

  // ----- the text form -----

  function SessionText(s: Session): string {
    NatToString(s.threadId) + " " + s.username
  }

  function UserText(u: UserData): string {
    IntToString(u.id) + " " + NamedText(u)
  }

  /** What follows the id. */
  function NamedText(u: UserData): string {
    u.username + " " + CountedText(u)
  }

  /** What follows the name. */
  function CountedText(u: UserData): string {
    NatToString(|u.followers|) + " " + ListsText(u)
  }

  /** The followers, and the sessions under their number. */
  function ListsText(u: UserData): string {
    Joined(u.followers, ",") + " " + (NatToString(|u.sessions|) + " " + Joined(Mapped(u.sessions, SessionText), ","))
  }

  /** `deserialize` on an object that holds `u`; `Failed` is the exception of `stoi`. */
  function ParseUser(raw: string, u: UserData): Read<UserData> {
    var splits := Parts(raw, " ");
    if |splits| < 6 then Got(u, "")
    else
      var (id, _) :- ReadInt(splits[0]);
      var (count, _) :- ReadInt(splits[2]);
      Got(u.(id := id, username := splits[1],
             followers := if count > 0 then Parts(splits[3], ",") else u.followers), "")
  }

  predicate IsValid(u: UserData) {
    u.id > 0 && u.username != ""
  }

  predicate PlainName(s: string) {
    s != "" && ' ' !in s && ',' !in s && '\n' !in s && '\0' !in s
  }

  predicate SafeUser(u: UserData) {
    && IsInt(u.id) && PlainName(u.username) && IsInt(|u.followers|)
    && (forall k :: 0 <= k < |u.followers| ==> PlainName(u.followers[k]))
    && (forall k :: 0 <= k < |u.sessions| ==> '\n' !in u.sessions[k].username && '\0' !in u.sessions[k].username)
  }

  lemma PartsCons(first: string, c: char, rest: string)
    requires c !in first
    ensures Parts(first + [c] + rest, [c]) == [first] + Parts(rest, [c])
  {
    SplitFirstAtChar(first, c, rest);
    var s := first + [c] + rest;
    assert OccursAt(s, [c], |first|);
    assert Find(s, [c]) != NPOS;
  }

  lemma NumberThen(n: nat, rest: string)
    ensures Parts(NatToString(n) + " " + rest, " ") == [NatToString(n)] + Parts(rest, " ")
  {
    IntStringShape(n);
    PartsCons(NatToString(n), ' ', rest);
  }

  lemma ListsTextParts(u: UserData)
    requires SafeUser(u)
    ensures |Parts(ListsText(u), " ")| >= 3 && Parts(ListsText(u), " ")[0] == Joined(u.followers, ",")
  {
    var last := Joined(Mapped(u.sessions, SessionText), ",");
    NumberThen(|u.sessions|, last);
    JoinedClean(u.followers, ",", ' ');
    PartsCons(Joined(u.followers, ","), ' ', NatToString(|u.sessions|) + " " + last);
  }

  lemma NamedTextParts(u: UserData)
    requires SafeUser(u)
    ensures Parts(NamedText(u), " ") == [u.username, NatToString(|u.followers|)] + Parts(ListsText(u), " ")
  {
    NumberThen(|u.followers|, ListsText(u));
    PartsCons(u.username, ' ', CountedText(u));
  }

  lemma UserTextParts(u: UserData)
    requires SafeUser(u)
    ensures
      var splits := Parts(UserText(u), " ");
      && |splits| >= 6
      && splits[0] == IntToString(u.id) && splits[1] == u.username
      && splits[2] == NatToString(|u.followers|) && splits[3] == Joined(u.followers, ",")
  {
    ListsTextParts(u);
    NamedTextParts(u);
    IntStringShape(u.id);
    PartsCons(IntToString(u.id), ' ', NamedText(u));
  }

  lemma ReadIntWhole(n: int)
    requires IsInt(n)
    ensures ReadInt(IntToString(n)) == Got(n, "")
  {
    assert IntToString(n) + "" == IntToString(n);
    ReadIntBack(n, "");
  }

  /** Everything but the sessions survives the trip, and the followers keep their order. */
  lemma UserBack(u: UserData)
    requires SafeUser(u)
    ensures ParseUser(UserText(u), NEW_USER) == Got(u.(sessions := []), "")
  {
    UserTextParts(u);
    ReadIntWhole(u.id);
    ReadIntWhole(|u.followers|);
    if u.followers != [] {
      SplitUndoesJoin(u.followers, ',');
    }
  }

  // ----- the class -----

  class User {
    var m_id: int
    var m_username: string
    var m_followers: seq<string>
    var m_sessions: seq<Session>

    function Data(): UserData
      reads this
    {
      UserData(m_id, m_username, m_followers, m_sessions)
    }

    constructor ()
      ensures Data() == NEW_USER
    {
      m_id, m_username, m_followers, m_sessions := -1, "", [], [];
    }

    constructor Named(id: int, username: string)
      ensures Data() == UserData(id, username, [], [])
    {
      m_id, m_username, m_followers, m_sessions := id, username, [], [];
    }

    constructor Copy(other: User)
      ensures Data() == other.Data()
    {
      m_id, m_username := other.m_id, other.m_username;
      m_followers, m_sessions := other.m_followers, other.m_sessions;
    }

    method AddFollower(follower: string) returns (ok: bool)
      modifies this
      ensures Data() == AddedFollower(old(Data()), follower)
      ensures ok <==> m_username != follower && follower !in old(m_followers)
      ensures ok ==> m_followers == Sorted(old(m_followers)) + [follower]
    {
      if m_username == follower {
        return false;
      }
      SortedIsSorted(m_followers);
      SortedSame(m_followers);
      m_followers := Sorted(m_followers);
      var alreadyFollow := BinarySearch(m_followers, follower);
      if alreadyFollow {
        return false;
      }
      m_followers := m_followers + [follower];
      return true;
    }

    method AddSession(session: Session) returns (ok: bool)
      modifies this`m_sessions
      ensures Data() == AddedSession(old(Data()), session)
      ensures ok == (|old(m_sessions)| < 2)
      ensures m_sessions == old(m_sessions) + if ok then [session] else []
    {
      if |m_sessions| < MAX_SESSIONS_PER_USER {
        m_sessions := m_sessions + [session];
        return true;
      }
      return false;
    }

    method RemoveSession(id: nat)
      modifies this`m_sessions
      ensures Data() == RemovedSession(old(Data()), id)
    {
      if |m_sessions| > 0 {
        if m_sessions[0].threadId == id {
          m_sessions := m_sessions[1..];
        } else if m_sessions[|m_sessions| - 1].threadId == id {
          m_sessions := m_sessions[..|m_sessions| - 1];
        }
      }
    }

    method Serialize() returns (s: string)
      ensures s == UserText(Data())
    {
      s := IntToString(m_id) + " " + m_username + " ";
      s := s + (NatToString(|m_followers|) + " ");
      var followers := JoinStringList(m_followers, ",");
      s := s + followers;
      s := s + (" " + NatToString(|m_sessions|) + " ");
      var head := s;
      s := AppendSeparated(head, m_sessions, SessionText, ",");
      UserTextPieces(Data());
    }

    /** `ok` is false when `stoi` throws. */
    method Deserialize(raw: string) returns (ok: bool)
      modifies this
      ensures ok <==> ParseUser(raw, old(Data())).Got?
      ensures ok ==> Data() == ParseUser(raw, old(Data())).value
      ensures |Parts(raw, " ")| <= 5 ==> ok && Data() == old(Data())
    {
      var splits := Split(raw, " ");
      if |splits| < 6 {
        return true;
      }
      var id := ReadInt(splits[0]);
      if id.Failed? {
        return false;
      }
      m_id := id.value;
      m_username := splits[1];
      var followersSize := ReadInt(splits[2]);
      if followersSize.Failed? {
        return false;
      }
      if followersSize.value > 0 {
        m_followers := [];
        var followers := Split(splits[3], ",");
        for i := 0 to |followers|
          invariant m_id == id.value && m_username == splits[1] && m_sessions == old(m_sessions)
          invariant m_followers == followers[..i]
        {
          m_followers := m_followers + [followers[i]];
        }
        assert followers[..|followers|] == followers;
      }
      return true;
    }
  }

  lemma UserTextPieces(u: UserData)
    ensures UserText(u) ==
            IntToString(u.id) + " " + u.username + " " + (NatToString(|u.followers|) + " ")
            + Joined(u.followers, ",") + (" " + NatToString(|u.sessions|) + " ")
            + Joined(Mapped(u.sessions, SessionText), ",")
  {
  }
}
