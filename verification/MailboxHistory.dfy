/**
 * What the notification store ought to show, told from the operations alone: who is known, which sessions are
 * live, what each user was sent, how much of it was handed over.  Every run of the store shows exactly that.
 */
module MailboxHistory {
  import opened Integers
  import opened NotificationStore
  import opened Mailboxes
  import opened MailboxProofs
  import opened DrainProofs
  import opened MailboxRuns

  // ----- the history -----

  /** The user was loaded, or has subscribed. */
  predicate Known(ops: seq<Op>, u: string) {
    ops != [] &&
      (Known(ops[..|ops| - 1], u) ||
       match ops[|ops| - 1]
       case LoadUsersOp(usernames) => u in usernames
       case SubscribeOp(v, _) => u == v
       case _ => false)
  }

  /** The user's sessions after the operation. */
  function KeysAfter(keys: set<nat>, u: string, op: Op): set<nat> {
    match op
    case SubscribeOp(v, id) => if u == v then keys + {id % 0x1_0000_0000} else keys
    case UnsubscribeOp(v, id) => if u == v then keys - {id % 0x1_0000_0000} else keys
    case FailoverOp => {}
    case _ => keys
  }

  /** The sessions that have subscribed for the user, and not unsubscribed; a failover ends them all. */
  function LiveKeys(ops: seq<Op>, u: string): set<nat> {
    if ops == [] then {} else KeysAfter(LiveKeys(ops[..|ops| - 1], u), u, ops[|ops| - 1])
  }

  /** How many notifications known users have sent. */
  function Sends(ops: seq<Op>): nat {
    if ops == [] then 0
    else
      var front, op := ops[..|ops| - 1], ops[|ops| - 1];
      Sends(front) + if op.SendOp? && Known(front, op.sender) then 1 else 0
  }

  /** What known users have sent to this one, since it is known: a copy for each time it is in the list. */
  function Received(ops: seq<Op>, u: string): seq<Mail> {
    if ops == [] then []
    else
      var front, op := ops[..|ops| - 1], ops[|ops| - 1];
      if op.SendOp? && Known(front, op.sender) && Known(front, u) then
        Received(front, u)
        + seq(multiset(op.followers)[u], _ => Mail(ToInt32(Sends(front) + 1), op.sender, op.timestamp, op.message))
      else Received(front, u)
  }

  /** How much of that was handed to sessions: all, when a session is live; nothing more, when there is none. */
  function Shown(ops: seq<Op>, u: string): nat {
    if ops == [] then 0
    else
      var front, op := ops[..|ops| - 1], ops[|ops| - 1];
      if op.SubscribeOp? && op.user == u then |Received(front, u)|
      else if op.SendOp? && LiveKeys(front, u) != {} then |Received(ops, u)|
      else Shown(front, u)
  }

  /** How much had been handed over when the session under this key subscribed. */
  function From(ops: seq<Op>, u: string, key: nat): nat {
    if ops == [] then 0
    else
      var front, op := ops[..|ops| - 1], ops[|ops| - 1];
      if op.SubscribeOp? && op.user == u && op.sessionId % 0x1_0000_0000 == key && key !in LiveKeys(front, u)
      then Shown(front, u)
      else From(front, u, key)
  }

  // ----- users and sessions -----

  ghost predicate SameUsers(ops: seq<Op>, w: World) {
    Domains(w) && forall u :: Known(ops, u) <==> u in w.store.queues
  }

  lemma {:induction false} LoadUsersAdds(st: Store, usernames: seq<string>)
    requires st.notifications.Keys == st.queues.Keys
    ensures
      var st' := LoadUsers(st, usernames);
      && st'.notifications.Keys == st'.queues.Keys
      && (forall u :: u in st'.queues <==> u in st.queues || u in usernames)
      && forall u :: u in st'.queues ==> st'.queues[u] == if u in st.queues then st.queues[u] else Inbox(map[], [])
  {
    if usernames != [] {
      LoadUsersAdds(st, usernames[..|usernames| - 1]);
    }
  }

  lemma {:induction false} RegisterAllAdds<T>(m: map<string, seq<T>>, usernames: seq<string>)
    ensures forall u :: u in RegisterAll(m, usernames) <==> u in m || u in usernames
  {
    if usernames != [] {
      RegisterAllAdds(m, usernames[..|usernames| - 1]);
    }
  }

  lemma {:induction false} DrainKeepsSenders(st: Store, u: string)
    requires u in st.queues
    ensures Drain(st, u).notifications.Keys == st.notifications.Keys
    decreases |st.queues[u].pending|
  {
    if st.queues[u].pending != [] {
      DrainKeepsSenders(DrainOne(st, u), u);
    }
  }

  /** Who is known after the operation, and with which sessions. */
  ghost predicate KeysStep(w: World, w': World, op: Op) {
    && Domains(w')
    && forall u ::
         && (u in w'.store.queues <==>
               u in w.store.queues || (op.LoadUsersOp? && u in op.usernames) || (op.SubscribeOp? && op.user == u))
         && (u in w'.store.queues ==>
               w'.store.queues[u].subscribers.Keys ==
                 KeysAfter(if u in w.store.queues then w.store.queues[u].subscribers.Keys else {}, u, op))
  }

  lemma LoadUsersKeys(w: World, usernames: seq<string>)
    requires Domains(w)
    ensures KeysStep(w, Step(w, LoadUsersOp(usernames)), LoadUsersOp(usernames))
  {
    LoadUsersAdds(w.store, usernames);
    RegisterAllAdds(w.sent, usernames);
    RegisterAllAdds(w.delivered, usernames);
    var w' := Step(w, LoadUsersOp(usernames));
    assert w'.sent.Keys == w'.store.queues.Keys && w'.delivered.Keys == w'.store.queues.Keys;
  }

  lemma SubscribeStoreKeys(st: Store, u: string, id: nat)
    requires u in st.queues
    ensures
      var st' := Subscribe(st, u, id, []);
      && st'.notifications.Keys == st.notifications.Keys && st'.queues.Keys == st.queues.Keys
      && st'.queues[u].subscribers.Keys == st.queues[u].subscribers.Keys + {id % 0x1_0000_0000}
      && forall v :: v in st.queues && v != u ==> st'.queues[v] == st.queues[v]
  {
    var added := st.(queues := st.queues[u := SubscribeQueue(st.queues[u], Key(id), [])]);
    DrainEffect(added, u);
    DrainKeepsSenders(added, u);
  }

  lemma SubscribeKeys(w: World, u: string, id: nat)
    requires Domains(w)
    ensures KeysStep(w, Step(w, SubscribeOp(u, id)), SubscribeOp(u, id))
  {
    if u in w.store.queues {
      SubscribeKnownKeys(w, u, id);
    } else {
      SubscribeNewKeys(w, u, id);
    }
  }

  lemma SubscribeKnownKeys(w: World, u: string, id: nat)
    requires Domains(w) && u in w.store.queues
    ensures KeysStep(w, StepSubscribe(w, u, id), SubscribeOp(u, id))
  {
    var w' := StepSubscribe(w, u, id);
    SubscribeStoreKeys(w.store, u, id);
    assert w'.store == Subscribe(w.store, u, id, []) && w'.sent == w.sent && w'.delivered.Keys == w.delivered.Keys;
  }

  lemma SubscribeNewKeys(w: World, u: string, id: nat)
    requires Domains(w) && u !in w.store.queues
    ensures KeysStep(w, StepSubscribe(w, u, id), SubscribeOp(u, id))
  {
    var w' := StepSubscribe(w, u, id);
    assert w'.store.queues == w.store.queues[u := Inbox(map[id % 0x1_0000_0000 := []], [])];
  }

  lemma SendKeys(w: World, op: Op)
    requires Domains(w) && op.SendOp?
    ensures KeysStep(w, Step(w, op), op)
  {
    if op.sender in w.store.notifications {
      var created := Tweet(op).(id := ToInt32(w.store.nextId));
      InsertAllKeys(w.store.queues, created, op.followers);
      forall u | u in w.store.queues
        ensures InsertAll(w.store.queues, created, op.followers)[u].subscribers.Keys == w.store.queues[u].subscribers.Keys
      {
        InsertAllAt(w.store.queues, created, op.followers, u);
      }
    }
  }

  lemma StepKeys(w: World, op: Op)
    requires Domains(w)
    ensures KeysStep(w, Step(w, op), op)
  {
    match op
    case LoadUsersOp(usernames) => LoadUsersKeys(w, usernames);
    case SubscribeOp(u, id) => SubscribeKeys(w, u, id);
    case UnsubscribeOp(_, _) =>
    case SendOp(_, _, _, _) => SendKeys(w, op);
    case FailoverOp =>
  }

  lemma {:induction false} UsersAre(ops: seq<Op>)
    ensures SameUsers(ops, Run(ops))
  {
    if ops != [] {
      UsersAre(ops[..|ops| - 1]);
      StepKeys(Run(ops[..|ops| - 1]), ops[|ops| - 1]);
    }
  }

  lemma {:induction false} UnknownHasNothing(ops: seq<Op>, u: string)
    requires !Known(ops, u)
    ensures LiveKeys(ops, u) == {} && Received(ops, u) == [] && Shown(ops, u) == 0
  {
    if ops != [] {
      UnknownHasNothing(ops[..|ops| - 1], u);
    }
  }

  /** The sessions of every user are the live ones: nobody is forgotten, or kept, by any operation. */
  lemma {:induction false} SessionsAre(ops: seq<Op>, u: string)
    ensures u in Run(ops).store.queues <==> Known(ops, u)
    ensures u in Run(ops).store.queues ==> Run(ops).store.queues[u].subscribers.Keys == LiveKeys(ops, u)
  {
    UsersAre(ops);
    if ops != [] {
      var front := ops[..|ops| - 1];
      UsersAre(front);
      SessionsAre(front, u);
      StepKeys(Run(front), ops[|ops| - 1]);
      if !Known(front, u) {
        UnknownHasNothing(front, u);
      }
    }
  }

  // ----- what was sent -----

  lemma {:induction false} SendsAre(ops: seq<Op>)
    ensures Run(ops).sends == Sends(ops) && Run(ops).store.nextId == (Sends(ops) + 1) % 0x1_0000_0000
  {
    NextIdIs(ops);
    if ops != [] {
      SendsAre(ops[..|ops| - 1]);
      UsersAre(ops[..|ops| - 1]);
    }
  }

  /** The history that the invariant speaks of is the one that the operations tell. */
  lemma {:induction false} SentAre(ops: seq<Op>, u: string)
    requires Known(ops, u)
    ensures u in Run(ops).sent && Run(ops).sent[u] == Received(ops, u)
  {
    var front, op := ops[..|ops| - 1], ops[|ops| - 1];
    UsersAre(ops);
    UsersAre(front);
    if Known(front, u) {
      SentAre(front, u);
    } else {
      UnknownHasNothing(front, u);
    }
    match op
    case LoadUsersOp(usernames) => RegisterAllKeeps(Run(front).sent, usernames, u);
    case SubscribeOp(v, id) =>
    case UnsubscribeOp(v, id) =>
    case SendOp(sender, timestamp, message, followers) =>
      if sender in Run(front).store.notifications {
        SendsAre(front);
        SameId(Run(front).store.nextId, Sends(front) + 1);
      }
    case FailoverOp =>
  }

  lemma SameId(nextId: int, number: int)
    requires nextId == number % 0x1_0000_0000
    ensures ToInt32(nextId) == ToInt32(number)
  {
  }

  // ----- what was handed over -----

  lemma {:induction false} ShownWithin(ops: seq<Op>, u: string)
    ensures Shown(ops, u) <= |Received(ops, u)|
  {
    if ops != [] {
      ShownWithin(ops[..|ops| - 1], u);
    }
  }

  /** As long as a session is live, everything is handed over. */
  lemma {:induction false} LiveHasAll(ops: seq<Op>, u: string)
    requires LiveKeys(ops, u) != {}
    ensures Known(ops, u) && Shown(ops, u) == |Received(ops, u)|
  {
    var front := ops[..|ops| - 1];
    if LiveKeys(front, u) != {} {
      LiveHasAll(front, u);
    }
  }

  lemma DeliveredOnline(ops: seq<Op>, u: string)
    requires IdsFree(ops) && Known(ops, u) && LiveKeys(ops, u) != {}
    ensures u in Run(ops).delivered && Run(ops).delivered[u] == Received(ops, u)
  {
    var w := Run(ops);
    RunKeepsInv(ops);
    SessionsAre(ops, u);
    SentAre(ops, u);
    assert UserHasAll(w, u) && Online(w.store.queues[u]);
    assert Resolve(w.store.notifications, []) == [];
  }

  lemma SubscribedIsLive(keys: set<nat>, u: string, sessionId: nat)
    ensures KeysAfter(keys, u, SubscribeOp(u, sessionId)) != {}
  {
    assert sessionId % 0x1_0000_0000 in KeysAfter(keys, u, SubscribeOp(u, sessionId));
  }

  /** The operation that has ended the last session, or anything after it. */
  lemma StillOffline(front: seq<Op>, op: Op, u: string)
    requires Known(front, u) && KeysAfter(LiveKeys(front, u), u, op) == {}
    ensures !(op.SubscribeOp? && op.user == u)
    ensures op.SendOp? ==> LiveKeys(front, u) == {}
  {
    if op.SubscribeOp? {
      SubscribedIsLive(LiveKeys(front, u), op.user, op.sessionId);
    }
  }

  /** Without a live session, nothing more is handed over. */
  lemma DeliveredStep(w: World, op: Op, u: string)
    requires Domains(w) && u in w.store.queues && !(op.SubscribeOp? && op.user == u)
    requires op.SendOp? ==> !Online(w.store.queues[u])
    ensures u in Step(w, op).delivered && Step(w, op).delivered[u] == w.delivered[u]
  {
    match op
    case LoadUsersOp(usernames) => RegisterAllKeeps(w.delivered, usernames, u);
    case SubscribeOp(_, _) =>
    case UnsubscribeOp(_, _) =>
    case SendOp(_, _, _, _) =>
    case FailoverOp =>
  }

  /** Nobody is known, and offline, but by an operation that leaves the mailbox empty. */
  lemma NewIsEmpty(w: World, op: Op, u: string)
    requires Domains(w) && u !in w.store.queues && u in Step(w, op).store.queues
    ensures u in Step(w, op).delivered && Step(w, op).delivered[u] == []
  {
    match op
    case LoadUsersOp(usernames) =>
      LoadUsersAdds(w.store, usernames);
      RegisterAllAdds(w.delivered, usernames);
      RegisterAllKeeps(w.delivered, usernames, u);
    case SubscribeOp(_, _) => StepKeys(w, op);
    case UnsubscribeOp(_, _) =>
    case SendOp(_, _, _, _) => StepKeys(w, op);
    case FailoverOp =>
  }

  lemma {:induction false} DeliveredAre(ops: seq<Op>, u: string)
    requires IdsFree(ops) && Known(ops, u)
    ensures Shown(ops, u) <= |Received(ops, u)|
    ensures u in Run(ops).delivered && Run(ops).delivered[u] == Received(ops, u)[..Shown(ops, u)]
    decreases |ops|, 1
  {
    ShownWithin(ops, u);
    if LiveKeys(ops, u) != {} {
      LiveHasAll(ops, u);
      DeliveredOnline(ops, u);
    } else {
      DeliveredOffline(ops, u);
    }
  }

  lemma {:induction false} DeliveredOffline(ops: seq<Op>, u: string)
    requires IdsFree(ops) && Known(ops, u) && LiveKeys(ops, u) == {}
    ensures Shown(ops, u) <= |Received(ops, u)|
    ensures u in Run(ops).delivered && Run(ops).delivered[u] == Received(ops, u)[..Shown(ops, u)]
    decreases |ops|, 0
  {
    var front, op := ops[..|ops| - 1], ops[|ops| - 1];
    UsersAre(ops);
    UsersAre(front);
    ShownWithin(front, u);
    if Known(front, u) {
      DeliveredAre(front, u);
      StillOffline(front, op, u);
      SessionsAre(front, u);
      DeliveredStep(Run(front), op, u);
      ReceivedGrows(ops, u);
    } else {
      UnknownHasNothing(front, u);
      NewIsEmpty(Run(front), op, u);
    }
  }

  lemma ReceivedGrows(ops: seq<Op>, u: string)
    requires ops != []
    ensures Received(ops[..|ops| - 1], u) <= Received(ops, u)
  {
  }

  lemma {:induction false} StartsAre(ops: seq<Op>, u: string, k: nat)
    requires IdsFree(ops) && k in LiveKeys(ops, u)
    ensures (u, k) in Run(ops).starts && Run(ops).starts[(u, k)] == From(ops, u, k)
  {
    var front, op := ops[..|ops| - 1], ops[|ops| - 1];
    UsersAre(front);
    SessionsAre(front, u);
    if k in LiveKeys(front, u) {
      StartsAre(front, u, k);
      LiveHasAll(front, u);
      StartKept(Run(front), op, u, k);
    } else {
      if Known(front, u) {
        DeliveredAre(front, u);
        ShownWithin(front, u);
      } else {
        UnknownHasNothing(front, u);
      }
    }
  }

  lemma StartKept(w: World, op: Op, u: string, k: nat)
    requires Domains(w) && u in w.store.queues && k in w.store.queues[u].subscribers && (u, k) in w.starts
    ensures (u, k) in Step(w, op).starts && Step(w, op).starts[(u, k)] == w.starts[(u, k)]
  {
  }

  /**
   * What the store shows of a user, told from the operations alone: the sessions are the live ones, each has
   * got what the user was sent from the point where it took over, and what is pending is the rest.
   */
  lemma StoreShowsHistory(ops: seq<Op>, u: string)
    requires IdsFree(ops) && Known(ops, u)
    ensures
      var st := Run(ops).store;
      && u in st.queues && st.queues[u].subscribers.Keys == LiveKeys(ops, u)
      && Shown(ops, u) <= |Received(ops, u)|
      && Resolve(st.notifications, st.queues[u].pending) == Received(ops, u)[Shown(ops, u)..]
  {
    SessionsAre(ops, u);
    SentAre(ops, u);
    DeliveredAre(ops, u);
    MailboxesRefined(ops, u);
  }

  lemma SessionShowsHistory(ops: seq<Op>, u: string, k: nat)
    requires IdsFree(ops) && k in LiveKeys(ops, u)
    ensures
      var queues := Run(ops).store.queues;
      && u in queues && k in queues[u].subscribers && From(ops, u, k) <= |Received(ops, u)|
      && Contents(queues[u].subscribers[k]) == Received(ops, u)[From(ops, u, k)..]
  {
    LiveHasAll(ops, u);
    SessionsAre(ops, u);
    SentAre(ops, u);
    StartsAre(ops, u, k);
    SessionStreams(ops, u, k);
  }

  // ----- one operation -----

  /** Another session of a user, or another user's, keeps what it has got. */
  ghost predicate KeepsSessions(st: Store, st': Store, u: string, key: nat) {
    forall v, k :: v in st.queues && k in st.queues[v].subscribers && (v, k) != (u, key) ==>
      && v in st'.queues && k in st'.queues[v].subscribers
      && st'.queues[v].subscribers[k] == st.queues[v].subscribers[k]
  }

  /** The other users' inboxes are as before, and no other user has one. */
  predicate KeepsOthers(st: Store, st': Store, u: string) {
    && st'.queues.Keys == st.queues.Keys + {u}
    && forall v :: v in st.queues && v != u ==> st'.queues[v] == st.queues[v]
  }

  /** A subscribe attaches the session, and takes nothing from any other; a live session changes nothing. */
  lemma SubscribeExactly(st: Store, u: string, sessionId: nat, content: seq<Notification>)
    requires u in st.queues && Online(st.queues[u]) ==> st.queues[u].pending == []
    ensures
      var st', key := Subscribe(st, u, sessionId, content), sessionId % 0x1_0000_0000;
      && KeepsOthers(st, st', u) && KeepsSessions(st, st', u, key) && st'.nextId == st.nextId
      && st'.queues[u].pending == []
      && (if u in st.queues then
            && st'.queues[u].subscribers.Keys == st.queues[u].subscribers.Keys + {key}
            && (key in st.queues[u].subscribers ==> st' == st)
            && (Online(st.queues[u]) && key !in st.queues[u].subscribers ==> st'.queues[u].subscribers[key] == content)
          else
            && st'.queues[u].subscribers == map[key := content]
            && st'.notifications == if u in st.notifications then st.notifications else st.notifications[u := []])
  {
    if u in st.queues {
      var added := st.(queues := st.queues[u := SubscribeQueue(st.queues[u], Key(sessionId), content)]);
      DrainEffect(added, u);
      DrainNextId(added, u);
      if Online(st.queues[u]) {
        assert Drain(added, u) == added;
        if Key(sessionId) in st.queues[u].subscribers {
          assert added.queues == st.queues;
        }
      }
    }
  }

  /** The same in a run. */
  lemma SubscribeKeepsOthers(ops: seq<Op>, u: string, sessionId: nat)
    requires IdsFree(ops)
    ensures
      var st, st' := Run(ops).store, Run(ops + [SubscribeOp(u, sessionId)]).store;
      KeepsOthers(st, st', u) && KeepsSessions(st, st', u, sessionId % 0x1_0000_0000)
  {
    RunKeepsInv(ops);
    RunOneMore(ops, SubscribeOp(u, sessionId));
    SubscribeExactly(Run(ops).store, u, sessionId, []);
  }

  /** An unsubscribe takes exactly the named session away, and touches nothing else. */
  lemma UnsubscribeExactly(st: Store, u: string, sessionId: nat)
    ensures
      var st', key := Unsubscribe(st, u, sessionId), sessionId % 0x1_0000_0000;
      && st'.nextId == st.nextId && st'.notifications == st.notifications
      && (u !in st.queues ==> st' == st)
      && (u in st.queues ==>
            && KeepsOthers(st, st', u) && KeepsSessions(st, st', u, key)
            && st'.queues[u].subscribers.Keys == st.queues[u].subscribers.Keys - {key}
            && st'.queues[u].pending == st.queues[u].pending)
  {
    if u in st.queues {
      assert st.queues.Keys + {u} == st.queues.Keys;
    }
  }

  /** A send by a user who is not known changes nothing. */
  lemma UnknownSenderChangesNothing(st: Store, n: Notification, followers: seq<string>)
    requires n.username !in st.notifications
    ensures SendTo(st, n, followers) == st
  {
  }
}
