/**
 * The notification store of the server as a value, and what each operation of
 * NotificationManager and NotificationQueue does to it.  The classes in
 * NotificationManager.dfy are proved against these functions.
 */
module NotificationStore {
  import opened Integers

  datatype Notification = Notification(
    id: int,
    timestamp: nat,
    username: string,
    pendingCount: int,
    message: string)

  datatype PendingNotification = PendingNotification(sender: string, notificationId: int)

  /**
   * One user's NotificationQueue.  A subscriber is represented by everything that was ever put
   * into its session queue.
   */
  datatype Inbox = Inbox(
    subscribers: map<nat, seq<Notification>>,
    pending: seq<PendingNotification>)

  const EMPTY_INBOX := Inbox(map[], [])

  datatype Store = Store(
    nextId: nat,
    notifications: map<string, seq<Notification>>,
    queues: map<string, Inbox>)

  const INITIAL_STORE := Store(1, map[], map[])

  /** The key a `long unsigned` session id is stored under: the map's keys are `unsigned int`. */
  function Key(sessionId: nat): nat {
    sessionId % TWO_32
  }

  function Reference(n: Notification): PendingNotification {
    PendingNotification(n.username, n.id)
  }

  // ----- NotificationQueue -----

  predicate Online(q: Inbox) {
    q.subscribers != map[]
  }

  function InsertToSubscribers(q: Inbox, n: Notification): Inbox {
    q.(subscribers := map k | k in q.subscribers :: q.subscribers[k] + [n])
  }

  function Insert(q: Inbox, n: Notification): Inbox {
    if Online(q) then InsertToSubscribers(q, n)
    else q.(pending := q.pending + [Reference(n)])
  }

  /** `emplace`: a key that is already there keeps its queue. */
  function SubscribeQueue(q: Inbox, key: nat, content: seq<Notification>): Inbox {
    if key in q.subscribers then q else q.(subscribers := q.subscribers[key := content])
  }

  function UnsubscribeQueue(q: Inbox, key: nat): Inbox {
    q.(subscribers := q.subscribers - {key})
  }

  // ----- NotificationManager::send -----

  function InsertAt(queues: map<string, Inbox>, n: Notification, follower: string): map<string, Inbox> {
    if follower in queues then queues[follower := Insert(queues[follower], n)] else queues
  }

  function InsertAll(queues: map<string, Inbox>, n: Notification, followers: seq<string>): map<string, Inbox> {
    if followers == [] then queues
    else InsertAt(InsertAll(queues, n, followers[..|followers| - 1]), n, followers[|followers| - 1])
  }

  /** How many of the followers got the notification at once. */
  function SentCount(queues: map<string, Inbox>, followers: seq<string>): (c: nat)
    ensures c <= |followers|
  {
    if followers == [] then 0
    else
      var f := followers[|followers| - 1];
      SentCount(queues, followers[..|followers| - 1]) + if f in queues && Online(queues[f]) then 1 else 0
  }

  function SendTo(st: Store, n: Notification, followers: seq<string>): Store {
    if n.username !in st.notifications then st
    else
      var created := n.(id := ToInt32(st.nextId));
      var count := n.pendingCount - SentCount(st.queues, followers);
      var list := st.notifications[n.username];
      Store(
        (st.nextId + 1) % TWO_32,
        st.notifications[n.username :=
          if count <= 0 then list else list + [created.(pendingCount := count)]],
        InsertAll(st.queues, created, followers))
  }

  // ----- NotificationManager::subscribe -----

  /** The position of the first notification with this id, or -1. */
  function IndexOf(list: seq<Notification>, id: int): (r: int)
    ensures r == -1 || (0 <= r < |list| && list[r].id == id)
    ensures forall i :: 0 <= i < (if r == -1 then |list| else r) ==> list[i].id != id
  {
    if list == [] then -1
    else if list[0].id == id then 0
    else
      var r := IndexOf(list[1..], id);
      if r == -1 then -1 else
      assert forall i :: 0 < i < r + 1 ==> list[i] == list[1..][i - 1];
      r + 1
  }

  /** Whether the reference leads to a stored notification. */
  predicate Resolves(notifications: map<string, seq<Notification>>, p: PendingNotification) {
    p.sender in notifications && IndexOf(notifications[p.sender], p.notificationId) != -1
  }

  function Lookup(notifications: map<string, seq<Notification>>, p: PendingNotification): (n: Notification)
    requires Resolves(notifications, p)
  {
    notifications[p.sender][IndexOf(notifications[p.sender], p.notificationId)]
  }

  /** The stored notifications after `findNotification` has found `p` and counted it down. */
  function CountDown(notifications: map<string, seq<Notification>>, p: PendingNotification)
    : map<string, seq<Notification>>
    requires Resolves(notifications, p)
  {
    var list := notifications[p.sender];
    var i := IndexOf(list, p.notificationId);
    var n := list[i];
    notifications[p.sender :=
      if n.pendingCount - 1 <= 0 then list[..i] + list[i + 1..]
      else list[i := n.(pendingCount := n.pendingCount - 1)]]
  }

  /** One round of the loop that hands over what was pending for `u`. */
  function DrainOne(st: Store, u: string): Store
    requires u in st.queues && st.queues[u].pending != []
  {
    var q := st.queues[u];
    var p := q.pending[0];
    var rest := q.(pending := q.pending[1..]);
    if Resolves(st.notifications, p) then
      st.(notifications := CountDown(st.notifications, p),
          queues := st.queues[u := InsertToSubscribers(rest, Lookup(st.notifications, p))])
    else
      st.(queues := st.queues[u := rest])
  }

  function Drain(st: Store, u: string): Store
    requires u in st.queues
    decreases |st.queues[u].pending|
  {
    if st.queues[u].pending == [] then st else Drain(DrainOne(st, u), u)
  }

  /** `content` is what the session queue held already. */
  function Subscribe(st: Store, u: string, sessionId: nat, content: seq<Notification>): Store {
    if u in st.queues then
      Drain(st.(queues := st.queues[u := SubscribeQueue(st.queues[u], Key(sessionId), content)]), u)
    else
      st.(notifications := Register(st.notifications, u, []),
          queues := st.queues[u := SubscribeQueue(EMPTY_INBOX, Key(sessionId), content)])
  }

  // ----- NotificationManager::unsubscribe and loadUsers -----

  function Unsubscribe(st: Store, u: string, sessionId: nat): Store {
    if u in st.queues then
      st.(queues := st.queues[u := UnsubscribeQueue(st.queues[u], Key(sessionId))])
    else st
  }

  /** `emplace` */
  function Register<T>(m: map<string, T>, u: string, value: T): map<string, T> {
    if u in m then m else m[u := value]
  }

  function LoadUsers(st: Store, usernames: seq<string>): Store {
    if usernames == [] then st
    else
      var before := LoadUsers(st, usernames[..|usernames| - 1]);
      var u := usernames[|usernames| - 1];
      before.(notifications := Register(before.notifications, u, []),
              queues := Register(before.queues, u, EMPTY_INBOX))
  }

  // ----- replication -----

  /** The part of a store that is replicated: the session queues stay behind. */
  function Offline(q: Inbox): Inbox {
    q.(subscribers := map[])
  }

  function Replicated(st: Store): Store {
    st.(queues := map u | u in st.queues :: Offline(st.queues[u]))
  }
}
