/**
 * The classes NotificationQueue and NotificationManager.  Every method is proved to do to the
 * view of the object what the function of the same name does in NotificationStore.
 */
module NotificationManagers {
  import opened Integers
  import opened NotificationStore
  import opened SessionQueues
  import opened MailboxProofs
  import opened StringUtils
  import opened Decimal
  import opened InputStream
  import opened NotificationCodec
  import opened CodecLoops
  import opened StoreCodec

  class NotificationQueue {
    var subscribersQueue: map<nat, Queue<Notification>>
    var pendingQueue: seq<PendingNotification>
    ghost var Repr: set<object>

    /** Different keys hold different session queues. */
    ghost predicate Valid()
      reads this, Repr
      ensures Valid() ==> this in Repr
    {
      && this in Repr
      && (forall k :: k in subscribersQueue ==> subscribersQueue[k] in Repr && subscribersQueue[k].Valid())
      && forall k, l :: k in subscribersQueue && l in subscribersQueue && k != l ==>
           subscribersQueue[k] != subscribersQueue[l]
    }

    ghost function View(): Inbox
      requires Valid()
      reads this, Repr
    {
      Inbox(map k | k in subscribersQueue :: subscribersQueue[k].log, pendingQueue)
    }

    /** A queue without sessions, as `deserialize` leaves it in a backup. */
    constructor Restored(pending: seq<PendingNotification>)
      ensures Valid() && Repr == {this} && View() == Inbox(map[], pending)
    {
      subscribersQueue := map[];
      pendingQueue := pending;
      Repr := {this};
    }

    /** The copy of a queue refers to the same sessions. */
    constructor Copy(other: NotificationQueue)
      requires other.Valid()
      ensures Valid() && View() == other.View()
      ensures Repr == {this} + other.subscribersQueue.Values
    {
      subscribersQueue := other.subscribersQueue;
      pendingQueue := other.pendingQueue;
      Repr := {this} + other.subscribersQueue.Values;
    }

    constructor ()
      ensures Valid() && Repr == {this} && View() == EMPTY_INBOX
    {
      subscribersQueue := map[];
      pendingQueue := [];
      Repr := {this};
    }

    /** The loop over the session queues: each one gets the notification once. */
    method InsertToEach(notification: Notification)
      requires Valid()
      modifies subscribersQueue.Values
      ensures unchanged(this) && Valid()
      ensures forall k :: k in subscribersQueue ==>
        subscribersQueue[k].log == old(subscribersQueue[k].log) + [notification]
    {
      var todo := subscribersQueue.Keys;
      while todo != {}
        invariant todo <= subscribersQueue.Keys
        invariant forall k :: k in subscribersQueue ==> subscribersQueue[k].Valid()
        invariant forall k :: k in todo ==> subscribersQueue[k].log == old(subscribersQueue[k].log)
        invariant forall k :: k in subscribersQueue && k !in todo ==>
          subscribersQueue[k].log == old(subscribersQueue[k].log) + [notification]
        decreases todo
      {
        var k :| k in todo;
        subscribersQueue[k].Insert(notification);
        todo := todo - {k};
      }
    }

    /** Copies `notification` into every session queue; false when there is none. */
    method InsertToSubscribers(notification: Notification) returns (delivered: bool)
      requires Valid()
      modifies Repr
      ensures Valid() && Repr == old(Repr)
      ensures delivered <==> Online(old(View()))
      ensures View() == NotificationStore.InsertToSubscribers(old(View()), notification)
    {
      OnlineHere();
      delivered := |subscribersQueue| > 0;
      InsertToEach(notification);
      EachGot(notification);
    }

    lemma OnlineHere()
      requires Valid()
      ensures Online(View()) <==> |subscribersQueue| > 0
    {
      assert View().subscribers.Keys == subscribersQueue.Keys;
    }

    twostate lemma EachGot(notification: Notification)
      requires old(Valid()) && Valid() && unchanged(this)
      requires forall k :: k in subscribersQueue ==>
        subscribersQueue[k].log == old(subscribersQueue[k].log) + [notification]
      ensures View() == NotificationStore.InsertToSubscribers(old(View()), notification)
    {
    }

    /** Hands the notification to the sessions, or queues a reference to it when there is none. */
    method Insert(notification: Notification) returns (delivered: bool)
      requires Valid()
      modifies Repr
      ensures Valid() && Repr == old(Repr)
      ensures delivered <==> Online(old(View()))
      ensures View() == NotificationStore.Insert(old(View()), notification)
    {
      ghost var before := View();
      OnlineHere();
      if |subscribersQueue| > 0 {
        delivered := InsertToSubscribers(notification);
      } else {
        var pending := PendingNotification(notification.username, notification.id);
        pendingQueue := pendingQueue + [pending];
        delivered := false;
        assert View().subscribers == before.subscribers;
      }
    }

    /** The oldest reference; an empty queue yields a reference to nobody. */
    method RemovePending() returns (pending: PendingNotification)
      requires Valid()
      modifies this`pendingQueue
      ensures Valid()
      ensures
        var q := old(View());
        if q.pending == [] then pending == PendingNotification("", -1) && View() == q
        else pending == q.pending[0] && View() == q.(pending := q.pending[1..])
    {
      ghost var before := View();
      if |pendingQueue| != 0 {
        pending := pendingQueue[0];
        pendingQueue := pendingQueue[1..];
      } else {
        pending := PendingNotification("", -1);
      }
      assert View().subscribers == before.subscribers;
    }

    /** The queue of a new session belongs to that session only. */
    method Subscribe(id: nat, queue: Queue<Notification>)
      requires Valid() && queue.Valid() && queue !in Repr
      modifies this
      ensures Valid() && old(Repr) <= Repr <= old(Repr) + {queue}
      ensures View() == SubscribeQueue(old(View()), Key(id), queue.log)
    {
      ghost var before := View();
      if Key(id) !in subscribersQueue {
        subscribersQueue := subscribersQueue[Key(id) := queue];
        Repr := Repr + {queue};
        assert View().subscribers == before.subscribers[Key(id) := queue.log];
      }
    }

    method Unsubscribe(id: nat)
      requires Valid()
      modifies this
      ensures Valid() && Repr == old(Repr)
      ensures View() == UnsubscribeQueue(old(View()), Key(id))
    {
      ghost var before := View();
      if Key(id) in subscribersQueue {
        subscribersQueue := subscribersQueue - {Key(id)};
      }
      assert View().subscribers == before.subscribers - {Key(id)};
    }
  }

  class NotificationManager {
    var nextId: nat
    var notifications: map<string, seq<Notification>>
    var pendingQueues: map<string, NotificationQueue>
    ghost var updates: seq<Store>    // the replicated state at each call of onUpdateCallback
    ghost var Repr: set<object>      // the queues of all users and their sessions

    /** Users share neither queues nor sessions. */
    ghost predicate QueuesValid()
      reads this`pendingQueues, this`Repr, Repr
    {
      && this !in Repr
      && (forall u :: u in pendingQueues ==> InRepr(u))
      && forall u, v :: u in pendingQueues && v in pendingQueues && u != v ==>
           pendingQueues[u].Repr !! pendingQueues[v].Repr
    }

    ghost predicate InRepr(u: string)
      requires u in pendingQueues
      reads this`pendingQueues, this`Repr, Repr
    {
      pendingQueues[u] in Repr && pendingQueues[u].Repr <= Repr && pendingQueues[u].Valid()
    }

    ghost function Inboxes(): map<string, Inbox>
      requires QueuesValid()
      reads this`pendingQueues, this`Repr, Repr
    {
      map u | u in pendingQueues :: assert InRepr(u); pendingQueues[u].View()
    }

    twostate lemma OtherKept(v: string)
      requires old(QueuesValid()) && v in old(pendingQueues)
      requires v in pendingQueues && pendingQueues[v] == old(pendingQueues[v])
      requires old(Repr) <= Repr
      requires forall o :: o in old(pendingQueues[v].Repr) ==> unchanged(o)
      ensures InRepr(v) && pendingQueues[v].Repr == old(pendingQueues[v].Repr) <= old(Repr)
      ensures v in old(Inboxes()) && pendingQueues[v].View() == old(Inboxes())[v]
    {
      assert old(InRepr(v));
      assert unchanged(old(pendingQueues[v]));
    }

    /** When one user's queue is the only thing that changed, all others look as before. */
    twostate lemma OneChanged(u: string)
      requires old(QueuesValid()) && u in old(pendingQueues) && pendingQueues == old(pendingQueues)
      requires old(Repr) <= Repr && this !in Repr
      requires InRepr(u)
      requires forall o :: o in pendingQueues[u].Repr ==> o in old(pendingQueues[u].Repr) || o !in old(Repr)
      requires forall v :: v in pendingQueues && v != u ==> forall o :: o in old(pendingQueues[v].Repr) ==> unchanged(o)
      ensures QueuesValid() && u in old(Inboxes()) && old(InRepr(u)) && old(Inboxes())[u] == old(pendingQueues[u].View())
      ensures Inboxes() == old(Inboxes())[u := pendingQueues[u].View()]
    {
      forall v | v in pendingQueues && v != u
        ensures InRepr(v) && pendingQueues[v].Repr == old(pendingQueues[v].Repr)
        ensures pendingQueues[v].View() == old(Inboxes())[v]
      {
        OtherKept(v);
      }
      forall v | v in pendingQueues && v != u ensures pendingQueues[v].Repr !! pendingQueues[u].Repr {
        assert old(pendingQueues[v].Repr !! pendingQueues[u].Repr);
        assert old(InRepr(v));
      }
    }

    /** The same, when no session queue of an old user changed either. */
    twostate lemma OneObjectChanged(u: string)
      requires old(QueuesValid()) && u in old(pendingQueues) && pendingQueues == old(pendingQueues)
      requires old(Repr) <= Repr && this !in Repr
      requires InRepr(u)
      requires forall o :: o in pendingQueues[u].Repr ==> o in old(pendingQueues[u].Repr) || o !in old(Repr)
      requires forall o :: o in old(Repr) && o != pendingQueues[u] ==> unchanged(o)
      ensures QueuesValid() && u in old(Inboxes()) && old(InRepr(u)) && old(Inboxes())[u] == old(pendingQueues[u].View())
      ensures Inboxes() == old(Inboxes())[u := pendingQueues[u].View()]
    {
      assert old(InRepr(u));
      forall v | v in pendingQueues && v != u
        ensures forall o :: o in old(pendingQueues[v].Repr) ==> unchanged(o)
      {
        assert old(InRepr(v));
        assert old(pendingQueues[v].Repr !! pendingQueues[u].Repr);
      }
      OneChanged(u);
    }

    ghost predicate Valid()
      reads this`nextId, this`pendingQueues, this`Repr, Repr
    {
      nextId < TWO_32 && QueuesValid()
    }

    ghost function View(): Store
      requires Valid()
      reads this`nextId, this`notifications, this`pendingQueues, this`Repr, Repr
    {
      Store(nextId, notifications, Inboxes())
    }

    constructor ()
      ensures Valid() && View() == INITIAL_STORE && updates == [] && Repr == {}
    {
      nextId := 1;
      notifications := map[];
      pendingQueues := map[];
      updates := [];
      Repr := {};
    }

    method GetNextId() returns (currentId: nat)
      requires nextId < TWO_32
      modifies this`nextId
      ensures currentId == old(nextId) && nextId == (old(nextId) + 1) % TWO_32
    {
      currentId := nextId;
      nextId := (nextId + 1) % TWO_32;
    }

    /** `onUpdateCallback(*this)`: the leader sends its state to the backups. */
    ghost method OnUpdate()
      requires Valid()
      modifies this`updates
      ensures Valid() && View() == old(View())
      ensures updates == old(updates) + [Replicated(View())]
    {
      updates := updates + [Replicated(View())];
    }

    /** Gives the notification its id and stores it, if the sender is registered. */
    method CreateNotification(notification: Notification) returns (ok: bool, created: Notification)
      requires nextId < TWO_32
      modifies this`nextId, this`notifications
      ensures ok <==> notification.username in old(notifications)
      ensures !ok ==> nextId == old(nextId) && notifications == old(notifications)
      ensures ok ==>
        && created == notification.(id := ToInt32(old(nextId)))
        && nextId == (old(nextId) + 1) % TWO_32
        && notifications ==
             old(notifications)[created.username := old(notifications)[created.username] + [created]]
    {
      ok, created := false, notification;
      if notification.username in notifications {
        var id := GetNextId();
        created := notification.(id := ToInt32(id));
        notifications := notifications[created.username := notifications[created.username] + [created]];
        ok := true;
      }
    }

    /** Only the follower's own queue and sessions change. */
    method InsertFor(follower: string, notification: Notification) returns (wasSent: bool)
      requires QueuesValid() && follower in pendingQueues
      modifies Repr
      ensures QueuesValid()
      ensures wasSent <==> Online(old(Inboxes())[follower])
      ensures Inboxes() == InsertAt(old(Inboxes()), notification, follower)
    {
      assert InRepr(follower);
      wasSent := pendingQueues[follower].Insert(notification);
      assert InRepr(follower);
      OneChanged(follower);
    }

    method CountDownLast(sender: string)
      requires QueuesValid() && sender in notifications && notifications[sender] != []
      modifies this`notifications
      ensures QueuesValid() && Inboxes() == old(Inboxes())
      ensures notifications == old(notifications)[sender := CountLast(old(notifications)[sender], 1)]
    {
      notifications := notifications[sender := CountLast(notifications[sender], 1)];
    }

    /** One round of the loop in `Send`; a follower without a queue is skipped. */
    method InsertOne(created: Notification, follower: string) returns (wasSent: bool)
      requires QueuesValid()
      requires created.username in notifications && notifications[created.username] != []
      modifies this`notifications, Repr
      ensures QueuesValid()
      ensures wasSent <==> follower in old(Inboxes()) && Online(old(Inboxes())[follower])
      ensures Inboxes() == InsertAt(old(Inboxes()), created, follower)
      ensures notifications ==
        if wasSent then old(notifications)[created.username := CountLast(old(notifications)[created.username], 1)]
        else old(notifications)
    {
      assert Inboxes().Keys == pendingQueues.Keys;
      wasSent := false;
      if follower in pendingQueues {
        wasSent := InsertFor(follower, created);
        if wasSent {
          CountDownLast(created.username);
        }
      }
    }

    /** The loop in `Send`: the stored copy is counted down once for every follower reached. */
    method InsertForAll(created: Notification, followers: seq<string>)
      requires QueuesValid()
      requires created.username in notifications && notifications[created.username] != []
      modifies this`notifications, Repr
      ensures QueuesValid()
      ensures Inboxes() == InsertAll(old(Inboxes()), created, followers)
      ensures notifications == old(notifications)[created.username :=
        CountLast(old(notifications)[created.username], SentCount(old(Inboxes()), followers))]
    {
      ghost var before := Inboxes();
      ghost var sent := 0;
      var sender := created.username;
      ghost var list := notifications[sender];
      CountLastAgain(list, 0);
      assert notifications[sender := list] == notifications;
      for i := 0 to |followers|
        invariant QueuesValid()
        invariant Inboxes() == InsertAll(before, created, followers[..i])
        invariant sent == SentCount(before, followers[..i])
        invariant notifications == old(notifications)[sender := CountLast(list, sent)]
      {
        FollowerStep(before, created, followers, i);
        CountLastAgain(list, sent);
        UpdateTwice(old(notifications), sender, CountLast(list, sent), CountLast(list, sent + 1));
        var wasSent := InsertOne(created, followers[i]);
        if wasSent {
          sent := sent + 1;
        }
      }
      assert followers[..|followers|] == followers;
    }

    /** A notification that nobody waits for is not kept. */
    method RemoveIfDone(sender: string)
      requires sender in notifications && notifications[sender] != []
      modifies this`notifications
      ensures
        var stored := old(notifications)[sender];
        notifications ==
          if stored[|stored| - 1].pendingCount <= 0 then old(notifications)[sender := stored[..|stored| - 1]]
          else old(notifications)
    {
      var stored := notifications[sender];
      if stored[|stored| - 1].pendingCount <= 0 {
        notifications := notifications[sender := stored[..|stored| - 1]];
      }
    }

    /** Everything in `Send` after the notification is stored, but the callback. */
    method Deliver(created: Notification, followers: seq<string>, ghost list: seq<Notification>)
      requires QueuesValid()
      requires created.username in notifications && notifications[created.username] == list + [created]
      modifies this`notifications, Repr
      ensures QueuesValid() && Inboxes() == InsertAll(old(Inboxes()), created, followers)
      ensures
        var count := created.pendingCount - SentCount(old(Inboxes()), followers);
        notifications == old(notifications)[created.username :=
          if count <= 0 then list else list + [created.(pendingCount := count)]]
    {
      ghost var sent := SentCount(Inboxes(), followers);
      InsertForAll(created, followers);
      CountLastNew(list, created, sent);
      RemoveIfDone(created.username);
    }

    method Send(notification: Notification, followers: seq<string>)
      requires Valid()
      modifies this`nextId, this`notifications, this`updates, Repr
      ensures Valid()
      ensures View() == SendTo(old(View()), notification, followers)
      ensures updates == old(updates) +
        if notification.username in old(notifications) then [Replicated(View())] else []
      ensures notification.username !in old(notifications) ==> View() == old(View()) && updates == old(updates)
    {
      ghost var before := View();
      var ok, created := CreateNotification(notification);
      if ok {
        assert Inboxes() == before.queues;
        Deliver(created, followers, before.notifications[created.username]);
        OnUpdate();
      }
    }

    /** Finds what a reference leads to and counts it down; a count of zero removes it. */
    method FindNotification(pending: PendingNotification) returns (found: bool, result: Notification)
      requires QueuesValid()
      modifies this`notifications
      ensures QueuesValid() && Inboxes() == old(Inboxes())
      ensures found <==> Resolves(old(notifications), pending)
      ensures found ==>
        && result == Lookup(old(notifications), pending)
        && notifications == CountDown(old(notifications), pending)
      ensures !found ==> notifications == old(notifications)
    {
      found, result := false, Notification(-1, 0, "", -1, "");
      if pending.sender in notifications {
        var list := notifications[pending.sender];
        var i := IndexOf(list, pending.notificationId);
        if i != -1 {
          found, result := true, list[i];
          list := list[i := result.(pendingCount := result.pendingCount - 1)];
          if list[i].pendingCount <= 0 {
            list := list[..i] + list[i + 1..];
          }
          notifications := notifications[pending.sender := list];
        }
      }
    }

    /** Takes the oldest reference of a user, and hands over what it leads to. */
    method HandOverNext(username: string)
      requires QueuesValid() && username in pendingQueues && pendingQueues[username].pendingQueue != []
      modifies this`notifications, Repr
      ensures QueuesValid() && username in old(Inboxes()) && old(Inboxes())[username].pending != []
      ensures
        var q := old(Inboxes())[username];
        var p, taken := q.pending[0], old(Inboxes())[username := q.(pending := q.pending[1..])];
        if Resolves(old(notifications), p) then
          && notifications == CountDown(old(notifications), p)
          && Inboxes() == taken[username := InsertToSubscribers(taken[username], Lookup(old(notifications), p))]
        else notifications == old(notifications) && Inboxes() == taken
    {
      var pending := TakePending(username);
      var found, notification := FindNotification(pending);
      if found {
        InsertToSubscribersOf(username, notification);
      }
    }

    /** One round of the loop in `Subscribe`. */
    method HandOver(username: string)
      requires Valid() && username in pendingQueues && pendingQueues[username].pendingQueue != []
      modifies this`notifications, Repr
      ensures Valid()
      ensures View() == DrainOne(old(View()), username)
    {
      ghost var before := View();
      HandOverNext(username);
      DrainOneSteps(before, username);
    }

    method TakePending(username: string) returns (pending: PendingNotification)
      requires QueuesValid() && username in pendingQueues && pendingQueues[username].pendingQueue != []
      modifies Repr
      ensures QueuesValid() && username in old(Inboxes())
      ensures
        var q := old(Inboxes())[username];
        && q.pending != [] && pending == q.pending[0]
        && Inboxes() == old(Inboxes())[username := q.(pending := q.pending[1..])]
    {
      assert InRepr(username);
      pending := pendingQueues[username].RemovePending();
      assert InRepr(username);
      OneObjectChanged(username);
    }

    method InsertToSubscribersOf(username: string, notification: Notification)
      requires QueuesValid() && username in pendingQueues
      modifies Repr
      ensures QueuesValid()
      ensures username in old(Inboxes())
      ensures Inboxes() == old(Inboxes())[username :=
        InsertToSubscribers(old(Inboxes())[username], notification)]
    {
      assert InRepr(username);
      var delivered := pendingQueues[username].InsertToSubscribers(notification);
      assert InRepr(username);
      OneChanged(username);
    }

    /** The user's own queue takes the session's; no other object changes. */
    method AttachTo(username: string, id: nat, queue: Queue<Notification>)
      requires QueuesValid() && username in pendingQueues
      requires queue.Valid() && queue !in Repr
      modifies Repr, this`Repr
      ensures unchanged(this`pendingQueues) && Repr == old(Repr) + {queue} && this !in Repr
      ensures InRepr(username) && pendingQueues[username].Repr <= old(pendingQueues[username].Repr) + {queue}
      ensures forall o :: o in old(Repr) && o != pendingQueues[username] ==> unchanged(o)
      ensures old(InRepr(username))
      ensures pendingQueues[username].View() == SubscribeQueue(old(pendingQueues[username].View()), Key(id), queue.log)
    {
      assert InRepr(username);
      pendingQueues[username].Subscribe(id, queue);
      Repr := Repr + {queue};
    }

    /** Adds a session's queue to a registered user; it belongs to that session only. */
    method SubscribeTo(username: string, id: nat, queue: Queue<Notification>)
      requires QueuesValid() && username in pendingQueues
      requires queue.Valid() && queue !in Repr
      modifies Repr, this`Repr
      ensures QueuesValid() && Repr == old(Repr) + {queue}
      ensures username in old(Inboxes())
      ensures Inboxes() == old(Inboxes())[username :=
        SubscribeQueue(old(Inboxes())[username], Key(id), queue.log)]
    {
      AttachTo(username, id, queue);
      OneObjectChanged(username);
    }

    twostate lemma QueueAdded(u: string)
      requires old(QueuesValid()) && u !in old(pendingQueues) && u in pendingQueues
      requires pendingQueues == old(pendingQueues)[u := pendingQueues[u]]
      requires pendingQueues[u].Valid() && pendingQueues[u].Repr == {pendingQueues[u]}
      requires Repr == old(Repr) + {pendingQueues[u]} && this !in Repr && pendingQueues[u] !in old(Repr)
      requires forall v :: v in old(pendingQueues) ==>
        && InRepr(v) && pendingQueues[v].Repr == old(pendingQueues[v].Repr) <= old(Repr)
        && v in old(Inboxes()) && pendingQueues[v].View() == old(Inboxes())[v]
      ensures QueuesValid()
      ensures Inboxes() == old(Inboxes())[u := pendingQueues[u].View()]
    {
      assert InRepr(u);
    }

    /** `emplace` of an empty queue for a user that has none. */
    method AddQueue(username: string)
      requires QueuesValid()
      modifies this`pendingQueues, this`Repr
      ensures QueuesValid() && fresh(Repr - old(Repr)) && old(Repr) <= Repr
      ensures username in pendingQueues
      ensures Inboxes() == Register(old(Inboxes()), username, EMPTY_INBOX)
    {
      assert Inboxes().Keys == pendingQueues.Keys;
      if username !in pendingQueues {
        var queue := new NotificationQueue();
        Emplace(username, queue);
      }
    }

    method Emplace(username: string, queue: NotificationQueue)
      requires QueuesValid() && queue.Valid() && queue.Repr == {queue} && queue !in Repr
      modifies this`pendingQueues, this`Repr
      ensures QueuesValid() && old(Repr) <= Repr <= old(Repr) + {queue}
      ensures username in pendingQueues
      ensures Inboxes() == Register(old(Inboxes()), username, queue.View())
    {
      assert Inboxes().Keys == pendingQueues.Keys;
      if username !in pendingQueues {
        pendingQueues := pendingQueues[username := queue];
        Repr := Repr + {queue};
        forall v | v in old(pendingQueues)
          ensures InRepr(v) && pendingQueues[v].Repr == old(pendingQueues[v].Repr) <= old(Repr)
          ensures v in old(Inboxes()) && pendingQueues[v].View() == old(Inboxes())[v]
        {
          assert old(InRepr(v));
          OtherKept(v);
        }
        QueueAdded(username);
      }
    }

    /** The loop in `Subscribe`. */
    method HandOverAll(username: string)
      requires Valid() && username in pendingQueues && username in View().queues
      modifies this`notifications, Repr
      ensures Valid()
      ensures View() == Drain(old(View()), username)
    {
      assert InRepr(username);
      while |pendingQueues[username].pendingQueue| != 0
        invariant Valid() && username in View().queues
        invariant Drain(View(), username) == Drain(old(View()), username)
        decreases |View().queues[username].pending|
      {
        HandOver(username);
      }
    }

    /** A session of a user that was not registered yet. */
    method SubscribeNew(username: string, id: nat, queue: Queue<Notification>)
      requires QueuesValid() && username !in pendingQueues && queue.Valid() && queue !in Repr
      modifies this`pendingQueues, this`Repr, Repr
      ensures QueuesValid()
      ensures Inboxes() == old(Inboxes())[username := SubscribeQueue(EMPTY_INBOX, Key(id), queue.log)]
    {
      ghost var before := Inboxes();
      assert before.Keys == pendingQueues.Keys;
      AddQueue(username);
      UpdateTwice(before, username, EMPTY_INBOX, SubscribeQueue(EMPTY_INBOX, Key(id), queue.log));
      SubscribeTo(username, id, queue);
    }

    /** All of `Subscribe` but the callback. */
    method SubscribeSession(username: string, id: nat, queue: Queue<Notification>)
      requires Valid() && queue.Valid() && queue !in Repr
      modifies this`notifications, this`pendingQueues, this`Repr, Repr, queue
      ensures Valid()
      ensures View() == NotificationStore.Subscribe(old(View()), username, id, old(queue.log))
    {
      assert View().queues.Keys == pendingQueues.Keys;
      if username in pendingQueues {
        SubscribeTo(username, id, queue);
        HandOverAll(username);
      } else {
        notifications := Register(notifications, username, []);
        SubscribeNew(username, id, queue);
      }
    }

    method Subscribe(username: string, id: nat, queue: Queue<Notification>)
      requires Valid() && queue.Valid() && queue !in Repr
      modifies this`notifications, this`pendingQueues, this`updates, this`Repr, Repr, queue
      ensures Valid()
      ensures View() == NotificationStore.Subscribe(old(View()), username, id, old(queue.log))
      ensures updates == old(updates) + [Replicated(View())]
    {
      SubscribeSession(username, id, queue);
      OnUpdate();
    }

    method UnsubscribeFrom(username: string, id: nat)
      requires QueuesValid() && username in pendingQueues
      modifies Repr
      ensures QueuesValid() && username in old(Inboxes())
      ensures Inboxes() == old(Inboxes())[username := UnsubscribeQueue(old(Inboxes())[username], Key(id))]
    {
      assert InRepr(username);
      pendingQueues[username].Unsubscribe(id);
      assert InRepr(username);
      OneObjectChanged(username);
    }

    method Unsubscribe(username: string, id: nat)
      requires Valid()
      modifies this`updates, Repr
      ensures Valid()
      ensures View() == NotificationStore.Unsubscribe(old(View()), username, id)
      ensures updates == old(updates) + [Replicated(View())]
    {
      assert View().queues.Keys == pendingQueues.Keys;
      if username in pendingQueues {
        UnsubscribeFrom(username, id);
      }
      OnUpdate();
    }

    method RegisterUser(username: string)
      requires Valid()
      modifies this`notifications, this`pendingQueues, this`Repr
      ensures Valid() && fresh(Repr - old(Repr))
      ensures View() == old(View()).(notifications := Register(old(View()).notifications, username, []),
                                     queues := Register(old(View()).queues, username, EMPTY_INBOX))
    {
      notifications := Register(notifications, username, []);
      AddQueue(username);
    }

    method LoadUsers(usernames: seq<string>)
      requires Valid()
      modifies this`notifications, this`pendingQueues, this`Repr
      ensures Valid() && fresh(Repr - old(Repr))
      ensures View() == NotificationStore.LoadUsers(old(View()), usernames)
    {
      for i := 0 to |usernames|
        invariant Valid() && fresh(Repr - old(Repr))
        invariant View() == NotificationStore.LoadUsers(old(View()), usernames[..i])
      {
        assert usernames[..i + 1][..i] == usernames[..i];
        RegisterUser(usernames[i]);
      }
      assert usernames[..|usernames|] == usernames;
    }

    /** The text for the backups; the two maps are visited in some order. */
    method Serialize() returns (s: string)
      requires Valid()
      ensures Prints(View(), s)
    {
      var first, order1 := SerializeNotifications();
      var second, order2 := SerializeQueues();
      s := IntToString(nextId) + "\n" + (first + SEPARATOR + second);
      assert s == PrintStore(View(), order1, order2);
    }

    method SerializeNotifications() returns (s: string, ghost order: seq<string>)
      ensures Enumerates(order, notifications.Keys)
      ensures s == Terminated(Lines(NotificationsLine, notifications, order), '\n')
    {
      var todo := notifications.Keys;
      s, order := "", [];
      while todo != {}
        invariant todo <= notifications.Keys && Enumerates(order, notifications.Keys - todo)
        invariant s == Terminated(Lines(NotificationsLine, notifications, order), '\n')
        decreases todo
      {
        var user :| user in todo;
        var line := SerializeLine(user, notifications[user]);
        LinesSnoc(NotificationsLine, notifications, order, user);
        s := s + line + "\n";
        EnumeratesMore(order, notifications.Keys, todo, user);
        order := order + [user];
        todo := todo - {user};
      }
      assert notifications.Keys - todo == notifications.Keys;
    }

    method SerializeQueueOf(user: string) returns (line: string)
      requires QueuesValid() && user in pendingQueues
      ensures user in Inboxes() && line == InboxLine(user, Inboxes()[user])
    {
      assert InRepr(user);
      var serialized := SerializeQueue(pendingQueues[user].pendingQueue);
      line := user + (" " + (IntToString(|serialized|) + (" " + serialized)));
    }

    method SerializeQueues() returns (s: string, ghost order: seq<string>)
      requires QueuesValid()
      ensures Enumerates(order, Inboxes().Keys)
      ensures s == Terminated(Lines(InboxLine, Inboxes(), order), '\n')
    {
      ghost var boxes := Inboxes();
      assert boxes.Keys == pendingQueues.Keys;
      var todo := pendingQueues.Keys;
      s, order := "", [];
      while todo != {}
        invariant todo <= pendingQueues.Keys && Enumerates(order, pendingQueues.Keys - todo)
        invariant s == Terminated(Lines(InboxLine, boxes, order), '\n')
        decreases todo
      {
        var user :| user in todo;
        var line := SerializeQueueOf(user);
        LinesSnoc(InboxLine, boxes, order, user);
        s := s + line + "\n";
        EnumeratesMore(order, pendingQueues.Keys, todo, user);
        order := order + [user];
        todo := todo - {user};
      }
      assert pendingQueues.Keys - todo == pendingQueues.Keys;
    }

    /** Reads what `Serialize` printed.  Nothing is promised for a text that cannot be read. */
    method Deserialize(raw: string) returns (ok: bool)
      requires Valid()
      modifies this`nextId, this`notifications, this`pendingQueues, this`Repr
      ensures ok <==> ParseStore(raw).Got?
      ensures ok ==> Valid() && fresh(Repr) && View() == ParseStore(raw).value
    {
      var idAndRest := SplitFirst(raw, "\n");
      var id := ReadInt(idAndRest.0);
      if id.Failed? {
        return false;
      }
      nextId := id.value % TWO_32;
      var notificationsAndQueues := SplitFirst(idAndRest.1, SEPARATOR);
      var read := DeserializeNotifications(notificationsAndQueues.0);
      if read.Failed? {
        return false;
      }
      notifications := read.value;
      ok := DeserializeQueues(notificationsAndQueues.1);
    }

    static method DeserializeNotifications(raw: string) returns (r: Read<map<string, seq<Notification>>>)
      ensures r.Got? <==> ParseLines(ParseNotificationsLine, Parts(raw, "\n")).Got?
      ensures r.Got? ==> r.value == ParseLines(ParseNotificationsLine, Parts(raw, "\n")).value
    {
      var lines := Split(raw, "\n");
      var notificationsMap := map[];
      for i := 0 to |lines|
        invariant ParseLines(ParseNotificationsLine, lines[..i]) == Got(notificationsMap, "")
      {
        ParseLinesStep(ParseNotificationsLine, lines, i, notificationsMap);
        if lines[i] != "" {
          var entry := DeserializeLine(lines[i]);
          if entry.Failed? {
            return Failed;
          }
          notificationsMap := Register(notificationsMap, entry.value.0, entry.value.1);
        }
      }
      assert lines[..|lines|] == lines;
      r := Got(notificationsMap, "");
    }

    static method DeserializeQueueLine(line: string) returns (r: Read<(string, seq<PendingNotification>)>)
      ensures r.Got? <==> ParseInboxLine(line).Got?
      ensures r.Got? ==> ParseInboxLine(line).value == (r.value.0, Inbox(map[], r.value.1))
    {
      var key := ReadToken(line);
      if key.Failed? {
        return Failed;
      }
      var buffer := ReadSized(key.rest);
      if buffer.Failed? {
        return Failed;
      }
      var pending := DeserializeQueue(buffer.value);
      if pending.Failed? {
        return Failed;
      }
      r := Got((key.value, pending.value), "");
    }

    method EmplaceRestored(user: string, pending: seq<PendingNotification>)
      requires QueuesValid()
      modifies this`pendingQueues, this`Repr
      ensures QueuesValid() && fresh(Repr - old(Repr))
      ensures Inboxes() == Register(old(Inboxes()), user, Inbox(map[], pending))
    {
      var queue := new NotificationQueue.Restored(pending);
      Emplace(user, queue);
    }

    /** One line of the loop in `DeserializeQueues`. */
    method DeserializeQueueInto(line: string) returns (ok: bool)
      requires QueuesValid()
      modifies this`pendingQueues, this`Repr
      ensures QueuesValid() && fresh(Repr - old(Repr))
      ensures ok <==> line == "" || ParseInboxLine(line).Got?
      ensures ok && line == "" ==> Inboxes() == old(Inboxes())
      ensures ok && line != "" ==>
        Inboxes() == Register(old(Inboxes()), ParseInboxLine(line).value.0, ParseInboxLine(line).value.1)
    {
      if line == "" {
        return true;
      }
      var entry := DeserializeQueueLine(line);
      if entry.Failed? {
        return false;
      }
      EmplaceRestored(entry.value.0, entry.value.1);
      return true;
    }

    method DeserializeQueues(raw: string) returns (ok: bool)
      modifies this`pendingQueues, this`Repr
      ensures ok <==> ParseLines(ParseInboxLine, Parts(raw, "\n")).Got?
      ensures ok ==> QueuesValid() && fresh(Repr) && Inboxes() == ParseLines(ParseInboxLine, Parts(raw, "\n")).value
    {
      var lines := Split(raw, "\n");
      pendingQueues := map[];
      Repr := {};
      for i := 0 to |lines|
        invariant QueuesValid() && fresh(Repr)
        invariant ParseLines(ParseInboxLine, lines[..i]) == Got(Inboxes(), "")
      {
        ParseLinesStep(ParseInboxLine, lines, i, Inboxes());
        ok := DeserializeQueueInto(lines[i]);
        if !ok {
          return;
        }
      }
      assert lines[..|lines|] == lines;
      ok := true;
    }

    /** The queues are values in the original: assigning the map copies them, in some order. */
    static method CopyQueues(source: map<string, NotificationQueue>, names: set<string>, ghost existing: set<object>)
      returns (queues: map<string, NotificationQueue>)
      requires names <= source.Keys && forall u :: u in source ==> source[u].Valid() && source[u].Repr <= existing
      requires forall u, v :: u in source && v in source && u != v ==> source[u].Repr !! source[v].Repr
      ensures queues.Keys == names && forall u :: u in queues ==> CopyOf(queues[u], source[u])
      ensures forall u, v :: u in queues && v in queues && u != v ==> queues[u].Repr !! queues[v].Repr
      ensures queues.Values !! existing
      decreases names
    {
      if names == {} {
        return map[];
      }
      var name :| name in names;
      var copied := CopyQueues(source, names - {name}, existing);
      queues := CopyQueue(source, copied, name, existing);
    }

    /** One more queue. */
    static method CopyQueue(source: map<string, NotificationQueue>, copied: map<string, NotificationQueue>, name: string,
                            ghost existing: set<object>)
      returns (queues: map<string, NotificationQueue>)
      requires copied.Keys + {name} <= source.Keys && name !in copied && copied.Values !! existing
      requires forall u :: u in source ==> source[u].Valid() && source[u].Repr <= existing
      requires forall u, v :: u in source && v in source && u != v ==> source[u].Repr !! source[v].Repr
      requires forall u :: u in copied ==> CopyOf(copied[u], source[u])
      requires forall u, v :: u in copied && v in copied && u != v ==> copied[u].Repr !! copied[v].Repr
      ensures name in queues && queues == copied[name := queues[name]] && queues.Values !! existing
      ensures forall u :: u in queues ==> CopyOf(queues[u], source[u])
      ensures forall u, v :: u in queues && v in queues && u != v ==> queues[u].Repr !! queues[v].Repr
    {
      var copy := new NotificationQueue.Copy(source[name]);
      forall u | u in copied ensures CopyOf(copied[u], source[u]) && copy.Repr !! copied[u].Repr {
        CopiesApart(copy, copied[u], source[name], source[u]);
      }
      queues := copied[name := copy];
    }

    /** Takes over a copy of another manager's state; the sessions are shared. */
    method Update(manager: NotificationManager)
      requires Valid() && manager.Valid() && this !in manager.Repr
      modifies this`nextId, this`notifications, this`pendingQueues, this`Repr
      ensures Valid() && View() == old(manager.View())
      ensures pendingQueues.Values !! old(manager.Repr) && Repr == old(manager.Repr) + pendingQueues.Values
    {
      var id, stored := manager.nextId, manager.notifications;
      UpdateQueues(manager);
      TakeNotifications(id, stored);
    }

    method TakeNotifications(id: nat, stored: map<string, seq<Notification>>)
      requires QueuesValid() && id < TWO_32
      modifies this`nextId, this`notifications
      ensures Valid() && View() == Store(id, stored, old(Inboxes()))
    {
      nextId := id;
      notifications := stored;
    }

    method UpdateQueues(manager: NotificationManager)
      requires manager.QueuesValid() && this !in manager.Repr
      modifies this`pendingQueues, this`Repr
      ensures QueuesValid() && Inboxes() == old(manager.Inboxes())
      ensures pendingQueues.Values !! old(manager.Repr) && Repr == old(manager.Repr) + pendingQueues.Values
    {
      ghost var boxes, source, repr := manager.Inboxes(), manager.pendingQueues, manager.Repr;
      assert forall u :: u in source ==> manager.InRepr(u) && source[u].View() == boxes[u];
      var queues := Copied(manager.pendingQueues, boxes, repr);
      TakeOver(queues, boxes, repr + queues.Values);
    }

    /** Copies that show what the given queues show. */
    static method Copied(source: map<string, NotificationQueue>, ghost boxes: map<string, Inbox>, ghost repr: set<object>)
      returns (queues: map<string, NotificationQueue>)
      requires source.Keys == boxes.Keys
      requires forall u :: u in source ==> Held(source[u], repr, boxes[u])
      requires forall u, v :: u in source && v in source && u != v ==> source[u].Repr !! source[v].Repr
      ensures queues.Keys == boxes.Keys && queues.Values !! repr
      ensures forall u :: u in queues ==> Held(queues[u], repr + queues.Values, boxes[u])
      ensures forall u, v :: u in queues && v in queues && u != v ==> queues[u].Repr !! queues[v].Repr
    {
      queues := CopyQueues(source, source.Keys, repr);
      forall u | u in queues ensures Held(queues[u], repr + queues.Values, boxes[u]) {
        CopyHeld(queues[u], source[u], repr + queues.Values);
      }
    }

    method TakeOver(queues: map<string, NotificationQueue>, ghost boxes: map<string, Inbox>, ghost repr: set<object>)
      requires this !in repr && queues.Keys == boxes.Keys && queues.Values <= repr
      requires forall u :: u in queues ==> Held(queues[u], repr, boxes[u])
      requires forall u, v :: u in queues && v in queues && u != v ==> queues[u].Repr !! queues[v].Repr
      modifies this`pendingQueues, this`Repr
      ensures QueuesValid() && Inboxes() == boxes && pendingQueues == queues && Repr == repr
    {
      pendingQueues := queues;
      Repr := repr;
      forall u | u in queues ensures Held(queues[u], repr, boxes[u]) && InRepr(u) {
      }
    }
  }

  ghost predicate Held(queue: NotificationQueue, repr: set<object>, inbox: Inbox)
    reads queue, queue.Repr
  {
    queue.Repr <= repr && queue.Valid() && queue.View() == inbox
  }

  lemma CopyHeld(copy: NotificationQueue, original: NotificationQueue, repr: set<object>)
    requires CopyOf(copy, original) && original.Repr + {copy} <= repr
    ensures Held(copy, repr, original.View())
  {
  }

  lemma CopiesApart(c1: NotificationQueue, c2: NotificationQueue, o1: NotificationQueue, o2: NotificationQueue)
    requires CopyOf(c1, o1) && CopyOf(c2, o2) && o1.Repr !! o2.Repr
    requires c1 != c2 && c1 !in o2.Repr && c2 !in o1.Repr
    ensures c1.Repr !! c2.Repr
  {
  }

  /** The copy shows the same, and has nothing in common with the original but the sessions. */
  ghost predicate CopyOf(copy: NotificationQueue, original: NotificationQueue)
    reads copy, copy.Repr, original, original.Repr
  {
    && original.Valid() && copy.Valid() && copy.View() == original.View()
    && copy.Repr == {copy} + original.subscribersQueue.Values
  }

  /** Counting the last stored notification down by `sent`. */
  function CountLast(list: seq<Notification>, sent: int): (r: seq<Notification>)
    requires list != []
    ensures |r| == |list|
  {
    var last := list[|list| - 1];
    list[|list| - 1 := last.(pendingCount := last.pendingCount - sent)]
  }

  lemma UpdateTwice<K, V>(m: map<K, V>, k: K, x: V, y: V)
    ensures m[k := x][k := y] == m[k := y]
  {
  }

  lemma CountLastAgain(list: seq<Notification>, sent: int)
    requires list != []
    ensures CountLast(CountLast(list, sent), 1) == CountLast(list, sent + 1)
    ensures CountLast(list, 0) == list
  {
  }

  lemma CountLastNew(list: seq<Notification>, n: Notification, sent: int)
    ensures CountLast(list + [n], sent) == list + [n.(pendingCount := n.pendingCount - sent)]
    ensures CountLast(list + [n], sent)[..|list|] == list
  {
  }

  /** A round of the drain loop takes the reference off before the notification is looked for. */
  lemma DrainOneSteps(st: Store, u: string)
    requires u in st.queues && st.queues[u].pending != []
    ensures
      var p := st.queues[u].pending[0];
      var taken := st.queues[u := st.queues[u].(pending := st.queues[u].pending[1..])];
      DrainOne(st, u) ==
      if Resolves(st.notifications, p) then
        st.(notifications := CountDown(st.notifications, p),
            queues := taken[u := InsertToSubscribers(taken[u], Lookup(st.notifications, p))])
      else st.(queues := taken)
  {
    var rest := st.queues[u].(pending := st.queues[u].pending[1..]);
    if Resolves(st.notifications, st.queues[u].pending[0]) {
      UpdateTwice(st.queues, u, rest, InsertToSubscribers(rest, Lookup(st.notifications, st.queues[u].pending[0])));
    }
  }

  /** One more follower; handing a notification out never changes who is online. */
  lemma FollowerStep(queues: map<string, Inbox>, n: Notification, followers: seq<string>, i: nat)
    requires i < |followers|
    ensures
      var f, before := followers[i], InsertAll(queues, n, followers[..i]);
      && InsertAll(queues, n, followers[..i + 1]) == InsertAt(before, n, f)
      && (f in before <==> f in queues)
      && SentCount(queues, followers[..i + 1]) ==
           SentCount(queues, followers[..i]) + if f in before && Online(before[f]) then 1 else 0
  {
    assert followers[..i + 1][..i] == followers[..i];
    InsertAllKeys(queues, n, followers[..i]);
    if followers[i] in queues {
      InsertAllAt(queues, n, followers[..i], followers[i]);
    }
  }
}
