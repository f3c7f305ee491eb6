/**
 * What the notification store is for: every registered follower has a mailbox.  A World carries,
 * beside the store, the history of what was sent to each user and what was handed to that user's
 * session queues; the invariant ties the shared, reference-counted store to those mailboxes.
 */
module Mailboxes {
  import opened Integers
  import opened NotificationStore
  import opened References

  /** What a follower gets to see of a notification; `Dangling` is a reference that leads nowhere. */
  datatype Mail = Mail(id: int, sender: string, timestamp: nat, message: string) | Dangling

  function Content(n: Notification): Mail {
    Mail(n.id, n.username, n.timestamp, n.message)
  }

  function Contents(log: seq<Notification>): seq<Mail> {
    seq(|log|, i requires 0 <= i < |log| => Content(log[i]))
  }

  function Deref(notifications: map<string, seq<Notification>>, p: PendingNotification): Mail {
    if Resolves(notifications, p) then Content(Lookup(notifications, p)) else Dangling
  }

  /** The mail a list of references stands for. */
  function Resolve(notifications: map<string, seq<Notification>>, ps: seq<PendingNotification>): seq<Mail> {
    seq(|ps|, i requires 0 <= i < |ps| => Deref(notifications, ps[i]))
  }

  function Copies<T>(x: T, followers: seq<string>, u: string): seq<T> {
    seq(multiset(followers)[u], _ => x)
  }

  datatype World = World(
    store: Store,
    sent: map<string, seq<Mail>>,
    delivered: map<string, seq<Mail>>,
    missing: map<PendingNotification, nat>,   // followers that had no queue when it was sent
    starts: map<(string, nat), nat>,          // how much was delivered when a session subscribed
    sends: nat)

  const INITIAL_WORLD := World(INITIAL_STORE, map[], map[], map[], map[], 0)

  function Missing(w: World, p: PendingNotification): nat {
    if p in w.missing then w.missing[p] else 0
  }

  // ----- the invariant -----

  predicate Domains(w: World) {
    && w.store.notifications.Keys == w.store.queues.Keys
    && w.sent.Keys == w.store.queues.Keys
    && w.delivered.Keys == w.store.queues.Keys
  }

  /** Reference-count conservation. */
  ghost predicate Conserved(w: World) {
    forall p :: CountIsRight(w, p)
  }

  ghost predicate CountIsRight(w: World, p: PendingNotification) {
    var total := Refs(w.store.queues, p) + Missing(w, p);
    && (Resolves(w.store.notifications, p) <==> total > 0)
    && (Resolves(w.store.notifications, p) ==>
          Lookup(w.store.notifications, p).pendingCount == total
          && Lookup(w.store.notifications, p).username == p.sender)
  }

  predicate UniqueIds(list: seq<Notification>) {
    forall i, j :: 0 <= i < j < |list| ==> list[i].id != list[j].id
  }

  /** Every reference leads to at most one stored notification. */
  predicate Unique(notifications: map<string, seq<Notification>>) {
    forall s :: s in notifications ==> UniqueIds(notifications[s])
  }

  predicate UserHasAll(w: World, u: string)
    requires u in w.store.queues && u in w.sent && u in w.delivered
  {
    w.sent[u] == w.delivered[u] + Resolve(w.store.notifications, w.store.queues[u].pending)
  }

  /** Nothing sent to a user is lost, repeated, reordered or altered. */
  predicate NothingLost(w: World)
    requires Domains(w)
  {
    forall u :: u in w.store.queues ==> UserHasAll(w, u)
  }

  predicate Streams(w: World)
    requires Domains(w)
  {
    forall u, k :: u in w.store.queues && k in w.store.queues[u].subscribers ==> StreamIsRun(w, u, k)
  }

  /** A session queue got exactly what was delivered to its user from the moment it subscribed. */
  predicate StreamIsRun(w: World, u: string, k: nat)
    requires u in w.store.queues && u in w.delivered && k in w.store.queues[u].subscribers
  {
    && (u, k) in w.starts
    && w.starts[(u, k)] <= |w.delivered[u]|
    && Contents(w.store.queues[u].subscribers[k]) == w.delivered[u][w.starts[(u, k)]..]
  }

  predicate Settled(w: World) {
    forall u :: u in w.store.queues && Online(w.store.queues[u]) ==> w.store.queues[u].pending == []
  }

  ghost predicate Issued(id: int, sends: nat) {
    exists k: nat :: 1 <= k <= sends && ToInt32(k) == id
  }

  ghost predicate IdsIssued(w: World) {
    && w.store.nextId == (w.sends + 1) % TWO_32
    && forall p :: Resolves(w.store.notifications, p) ==> Issued(p.notificationId, w.sends)
  }

  /** The part of the invariant that also holds between two rounds of the drain loop. */
  ghost predicate Consistent(w: World) {
    && Domains(w)
    && Conserved(w)
    && Unique(w.store.notifications)
    && NothingLost(w)
    && Streams(w)
    && IdsIssued(w)
  }

  ghost predicate Inv(w: World) {
    Consistent(w) && Settled(w)
  }

  // ----- the operations -----

  datatype Op =
    | LoadUsersOp(usernames: seq<string>)
    | SubscribeOp(user: string, sessionId: nat)
    | UnsubscribeOp(user: string, sessionId: nat)
    | SendOp(sender: string, timestamp: nat, message: string, followers: seq<string>)
    | FailoverOp

  /** SendTweetRoute starts the countdown at the number of followers. */
  function Tweet(op: Op): Notification
    requires op.SendOp?
  {
    Notification(-1, op.timestamp, op.sender, |op.followers|, op.message)
  }

  function NewMail(st: Store, op: Op): Mail
    requires op.SendOp?
  {
    Mail(ToInt32(st.nextId), op.sender, op.timestamp, op.message)
  }

  function NewReference(st: Store, op: Op): PendingNotification
    requires op.SendOp?
  {
    PendingNotification(op.sender, ToInt32(st.nextId))
  }

  function Unregistered(queues: map<string, Inbox>, followers: seq<string>): nat {
    if followers == [] then 0
    else
      Unregistered(queues, followers[..|followers| - 1])
      + if followers[|followers| - 1] in queues then 0 else 1
  }

  function IsOnline(st: Store, u: string): bool {
    u in st.queues && Online(st.queues[u])
  }

  function StepSend(w: World, op: Op): World
    requires op.SendOp?
  {
    if op.sender !in w.store.notifications then w
    else
      var mail := NewMail(w.store, op);
      var p := NewReference(w.store, op);
      World(
        SendTo(w.store, Tweet(op), op.followers),
        map u | u in w.sent :: w.sent[u] + Copies(mail, op.followers, u),
        map u | u in w.delivered ::
          w.delivered[u] + if IsOnline(w.store, u) then Copies(mail, op.followers, u) else [],
        w.missing[p := Missing(w, p) + Unregistered(w.store.queues, op.followers)],
        w.starts,
        w.sends + 1)
  }

  function StepSubscribe(w: World, u: string, sessionId: nat): World {
    var after := w.(store := Subscribe(w.store, u, sessionId, []));
    if u !in w.store.queues then
      after.(sent := Register(w.sent, u, []),
             delivered := Register(w.delivered, u, []),
             starts := w.starts[(u, Key(sessionId)) := 0])
    else if u !in w.delivered then after
    else
      after.(delivered := w.delivered[u :=
               w.delivered[u] + Resolve(w.store.notifications, w.store.queues[u].pending)],
             starts := if Key(sessionId) in w.store.queues[u].subscribers then w.starts
                       else w.starts[(u, Key(sessionId)) := |w.delivered[u]|])
  }

  function RegisterAll<T>(m: map<string, seq<T>>, usernames: seq<string>): map<string, seq<T>> {
    if usernames == [] then m
    else Register(RegisterAll(m, usernames[..|usernames| - 1]), usernames[|usernames| - 1], [])
  }

  function Step(w: World, op: Op): World {
    match op
    case LoadUsersOp(usernames) =>
      w.(store := LoadUsers(w.store, usernames),
         sent := RegisterAll(w.sent, usernames),
         delivered := RegisterAll(w.delivered, usernames))
    case SubscribeOp(u, sessionId) => StepSubscribe(w, u, sessionId)
    case UnsubscribeOp(u, sessionId) => w.(store := Unsubscribe(w.store, u, sessionId))
    case SendOp(_, _, _, _) => StepSend(w, op)
    case FailoverOp => w.(store := Replicated(w.store))
  }

  function Run(ops: seq<Op>): World {
    if ops == [] then INITIAL_WORLD else Step(Run(ops[..|ops| - 1]), ops[|ops| - 1])
  }
}
