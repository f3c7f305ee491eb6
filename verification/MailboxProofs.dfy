/** Every operation of the notification store keeps the mailbox invariant. */
module MailboxProofs {
  import opened Integers
  import opened NotificationStore
  import opened References
  import opened Mailboxes

  // ----- send: what the loop over the followers does -----

  lemma CopiesSnoc<T>(x: T, followers: seq<string>, u: string)
    requires followers != []
    ensures
      var front := followers[..|followers| - 1];
      Copies(x, followers, u) ==
        Copies(x, front, u) + if followers[|followers| - 1] == u then [x] else []
  {
    var front := followers[..|followers| - 1];
    assert followers == front + [followers[|followers| - 1]];
  }

  lemma {:induction false} InsertAllKeys(queues: map<string, Inbox>, n: Notification, followers: seq<string>)
    ensures InsertAll(queues, n, followers).Keys == queues.Keys
  {
    if followers != [] {
      InsertAllKeys(queues, n, followers[..|followers| - 1]);
    }
  }

  /** An online follower's sessions each get one copy per occurrence, an offline one a reference. */
  lemma {:induction false} InsertAllAt(queues: map<string, Inbox>, n: Notification, followers: seq<string>, u: string)
    requires u in queues
    ensures u in InsertAll(queues, n, followers)
    ensures
      var q, q' := queues[u], InsertAll(queues, n, followers)[u];
      if Online(q) then
        && q'.pending == q.pending
        && q'.subscribers.Keys == q.subscribers.Keys
        && forall k :: k in q.subscribers ==>
             q'.subscribers[k] == q.subscribers[k] + Copies(n, followers, u)
      else
        q' == q.(pending := q.pending + Copies(Reference(n), followers, u))
  {
    if followers == [] {
      assert queues[u].pending + [] == queues[u].pending;
    } else {
      var front := followers[..|followers| - 1];
      InsertAllAt(queues, n, front, u);
      CopiesSnoc(n, followers, u);
      CopiesSnoc(Reference(n), followers, u);
      var q, q1 := queues[u], InsertAll(queues, n, front)[u];
      if Online(q) {
        assert Online(q1);
      }
    }
  }

  function Waiting(queues: map<string, Inbox>, followers: seq<string>): nat {
    if followers == [] then 0
    else
      var f := followers[|followers| - 1];
      Waiting(queues, followers[..|followers| - 1]) + if f in queues && !Online(queues[f]) then 1 else 0
  }

  /** Each follower was reached at once, waits, or is not registered. */
  lemma {:induction false} FollowersSplit(queues: map<string, Inbox>, followers: seq<string>)
    ensures |followers| ==
      SentCount(queues, followers) + Waiting(queues, followers) + Unregistered(queues, followers)
  {
    if followers != [] {
      FollowersSplit(queues, followers[..|followers| - 1]);
    }
  }

  lemma {:induction false} InsertAllRefs(queues: map<string, Inbox>, n: Notification, followers: seq<string>, p: PendingNotification)
    ensures Refs(InsertAll(queues, n, followers), p) ==
      Refs(queues, p) + if p == Reference(n) then Waiting(queues, followers) else 0
  {
    if followers != [] {
      var front, f := followers[..|followers| - 1], followers[|followers| - 1];
      InsertAllRefs(queues, n, front, p);
      InsertAllKeys(queues, n, front);
      var before := InsertAll(queues, n, front);
      if f in queues {
        InsertAllAt(queues, n, front, f);
        var q := before[f];
        if Online(queues[f]) {
          assert Online(q);
        }
        RefsUpdate(before, f, Insert(q, n), p);
      }
    }
  }

  // ----- send: the stored notifications -----

  lemma IndexOfAppend(list: seq<Notification>, x: Notification, id: int)
    ensures IndexOf(list + [x], id) ==
      if IndexOf(list, id) != -1 then IndexOf(list, id) else if x.id == id then |list| else -1
  {
    var all := list + [x];
    var r := IndexOf(all, id);
    if IndexOf(list, id) != -1 {
      assert all[IndexOf(list, id)].id == id;
    } else if x.id == id {
      assert all[|list|].id == id;
    }
  }

  /** Storing a new notification changes what its own reference leads to, and nothing else. */
  lemma AppendLookup(ns: map<string, seq<Notification>>, x: Notification, p: PendingNotification)
    requires x.username in ns && !Resolves(ns, Reference(x))
    ensures
      var ns' := ns[x.username := ns[x.username] + [x]];
      if p == Reference(x) then Resolves(ns', p) && Lookup(ns', p) == x
      else (Resolves(ns', p) <==> Resolves(ns, p)) && (Resolves(ns, p) ==> Lookup(ns', p) == Lookup(ns, p))
  {
    IndexOfAppend(ns[x.username], x, p.notificationId);
  }

  lemma ResolveSame(ns: map<string, seq<Notification>>, ns': map<string, seq<Notification>>, ps: seq<PendingNotification>)
    requires forall p :: p in ps ==> Deref(ns, p) == Deref(ns', p)
    ensures Resolve(ns, ps) == Resolve(ns', ps)
  {
    forall i | 0 <= i < |ps| ensures Resolve(ns, ps)[i] == Resolve(ns', ps)[i] {
      assert ps[i] in ps;
    }
  }

  lemma PendingResolves(w: World, u: string, p: PendingNotification)
    requires Conserved(w) && u in w.store.queues && p in w.store.queues[u].pending
    ensures Resolves(w.store.notifications, p)
  {
    assert CountIsRight(w, p);
    RefsAtLeast(w.store.queues, u, p);
  }

  lemma ContentsAppend(a: seq<Notification>, b: seq<Notification>)
    ensures Contents(a + b) == Contents(a) + Contents(b)
  {
  }

  /** The id the next notification gets is not in use, or nobody has to wait for it. */
  predicate SendIsSafe(st: Store, op: Op)
    requires op.SendOp?
  {
    || !Resolves(st.notifications, NewReference(st, op))
    || SentCount(st.queues, op.followers) == |op.followers|
  }

  function Remaining(st: Store, op: Op): nat
    requires op.SendOp?
  {
    |op.followers| - SentCount(st.queues, op.followers)
  }

  function Created(st: Store, op: Op): Notification
    requires op.SendOp?
  {
    Tweet(op).(id := ToInt32(st.nextId))
  }

  /** After a send the new reference leads to the new notification if somebody still waits for it. */
  lemma SendLookup(st: Store, op: Op, p: PendingNotification)
    requires op.SendOp? && op.sender in st.notifications && SendIsSafe(st, op)
    ensures
      var ns, ns' := st.notifications, SendTo(st, Tweet(op), op.followers).notifications;
      if p == NewReference(st, op) && Remaining(st, op) > 0 then
        Resolves(ns', p) && Lookup(ns', p) == Created(st, op).(pendingCount := Remaining(st, op))
      else
        (Resolves(ns', p) <==> Resolves(ns, p)) && (Resolves(ns, p) ==> Lookup(ns', p) == Lookup(ns, p))
  {
    if Remaining(st, op) > 0 {
      AppendLookup(st.notifications, Created(st, op).(pendingCount := Remaining(st, op)), p);
    } else {
      assert SendTo(st, Tweet(op), op.followers).notifications == st.notifications;
    }
  }

  lemma SendCounts(w: World, op: Op, p: PendingNotification)
    requires op.SendOp? && op.sender in w.store.notifications
    requires Conserved(w) && SendIsSafe(w.store, op)
    ensures CountIsRight(StepSend(w, op), p)
  {
    var r := NewReference(w.store, op);
    assert CountIsRight(w, p) && CountIsRight(w, r);
    InsertAllRefs(w.store.queues, Created(w.store, op), op.followers, p);
    FollowersSplit(w.store.queues, op.followers);
    SendLookup(w.store, op, p);
  }

  lemma SendUnique(w: World, op: Op)
    requires op.SendOp? && op.sender in w.store.notifications
    requires Unique(w.store.notifications) && SendIsSafe(w.store, op)
    ensures Unique(StepSend(w, op).store.notifications)
  {
    var list := w.store.notifications[op.sender];
    assert UniqueIds(list);
  }

  /** What the references that were already waiting stand for does not change. */
  lemma SendKeepsPending(w: World, op: Op, u: string)
    requires op.SendOp? && op.sender in w.store.notifications
    requires Conserved(w) && SendIsSafe(w.store, op) && u in w.store.queues
    ensures
      Resolve(SendTo(w.store, Tweet(op), op.followers).notifications, w.store.queues[u].pending) ==
        Resolve(w.store.notifications, w.store.queues[u].pending)
  {
    var ns, ns' := w.store.notifications, SendTo(w.store, Tweet(op), op.followers).notifications;
    var r := NewReference(w.store, op);
    forall p | p in w.store.queues[u].pending ensures Deref(ns, p) == Deref(ns', p) {
      PendingResolves(w, u, p);
      SendLookup(w.store, op, p);
      assert p != r || Remaining(w.store, op) <= 0;
    }
    ResolveSame(ns, ns', w.store.queues[u].pending);
  }

  lemma ResolveCopies(ns: map<string, seq<Notification>>, ps: seq<PendingNotification>, r: PendingNotification,
                      mail: Mail, followers: seq<string>, u: string)
    requires multiset(followers)[u] > 0 ==> Deref(ns, r) == mail
    ensures Resolve(ns, ps + Copies(r, followers, u)) == Resolve(ns, ps) + Copies(mail, followers, u)
  {
  }

  lemma SendMailboxOnline(w: World, op: Op, u: string)
    requires op.SendOp? && op.sender in w.store.notifications
    requires Domains(w) && u in w.store.queues && UserHasAll(w, u)
    requires Online(w.store.queues[u]) && w.store.queues[u].pending == []
    ensures
      var w' := StepSend(w, op);
      u in w'.store.queues && u in w'.sent && u in w'.delivered && UserHasAll(w', u)
  {
    InsertAllAt(w.store.queues, Created(w.store, op), op.followers, u);
    assert Resolve(w.store.notifications, []) == [];
    assert Resolve(StepSend(w, op).store.notifications, []) == [];
  }

  /** Who has to wait gets a reference that leads to the new notification. */
  lemma NewMailDeref(w: World, op: Op, u: string)
    requires op.SendOp? && op.sender in w.store.notifications && SendIsSafe(w.store, op)
    requires u in w.store.queues && !Online(w.store.queues[u]) && multiset(op.followers)[u] > 0
    ensures Deref(SendTo(w.store, Tweet(op), op.followers).notifications, NewReference(w.store, op)) == NewMail(w.store, op)
  {
    SomeoneWaits(w.store.queues, op.followers, u);
    SendLookup(w.store, op, NewReference(w.store, op));
  }

  lemma SendResolvesOffline(w: World, op: Op, u: string)
    requires op.SendOp? && op.sender in w.store.notifications
    requires Conserved(w) && SendIsSafe(w.store, op)
    requires u in w.store.queues && !Online(w.store.queues[u])
    ensures
      var st := SendTo(w.store, Tweet(op), op.followers);
      && u in st.queues
      && Resolve(st.notifications, st.queues[u].pending) ==
           Resolve(w.store.notifications, w.store.queues[u].pending) + Copies(NewMail(w.store, op), op.followers, u)
  {
    var ns' := SendTo(w.store, Tweet(op), op.followers).notifications;
    InsertAllAt(w.store.queues, Created(w.store, op), op.followers, u);
    SendKeepsPending(w, op, u);
    if multiset(op.followers)[u] > 0 {
      NewMailDeref(w, op, u);
    }
    ResolveCopies(ns', w.store.queues[u].pending, NewReference(w.store, op), NewMail(w.store, op), op.followers, u);
  }

  lemma SendMailboxOffline(w: World, op: Op, u: string)
    requires op.SendOp? && op.sender in w.store.notifications
    requires Domains(w) && Conserved(w) && SendIsSafe(w.store, op)
    requires u in w.store.queues && UserHasAll(w, u) && !Online(w.store.queues[u])
    ensures
      var w' := StepSend(w, op);
      u in w'.store.queues && u in w'.sent && u in w'.delivered && UserHasAll(w', u)
  {
    SendResolvesOffline(w, op, u);
    var w' := StepSend(w, op);
    var copies := Copies(NewMail(w.store, op), op.followers, u);
    assert w'.delivered[u] == w.delivered[u] + [] == w.delivered[u];
    var pending := Resolve(w.store.notifications, w.store.queues[u].pending);
    assert w.delivered[u] + pending + copies == w.delivered[u] + (pending + copies);
  }

  lemma {:induction false} SomeoneWaits(queues: map<string, Inbox>, followers: seq<string>, u: string)
    requires u in queues && !Online(queues[u]) && multiset(followers)[u] > 0
    ensures SentCount(queues, followers) < |followers|
  {
    var front, f := followers[..|followers| - 1], followers[|followers| - 1];
    assert followers == front + [f];
    if f != u {
      SomeoneWaits(queues, front, u);
    }
  }

  lemma SendStreams(w: World, op: Op, u: string, k: nat)
    requires op.SendOp? && op.sender in w.store.notifications && Domains(w)
    requires u in w.store.queues && k in w.store.queues[u].subscribers && StreamIsRun(w, u, k)
    ensures
      var w' := StepSend(w, op);
      && u in w'.store.queues && k in w'.store.queues[u].subscribers && u in w'.delivered
      && StreamIsRun(w', u, k)
  {
    var created := Created(w.store, op);
    InsertAllAt(w.store.queues, created, op.followers, u);
    assert Online(w.store.queues[u]);
    ContentsAppend(w.store.queues[u].subscribers[k], Copies(created, op.followers, u));
    assert Contents(Copies(created, op.followers, u)) == Copies(NewMail(w.store, op), op.followers, u);
  }

  lemma StillIssued(id: int, sends: nat)
    requires Issued(id, sends)
    ensures Issued(id, sends + 1)
  {
    var k: nat :| 1 <= k <= sends && ToInt32(k) == id;
    assert 1 <= k <= sends + 1 && ToInt32(k) == id;
  }

  lemma JustIssued(nextId: nat, sends: nat)
    requires nextId == (sends + 1) % TWO_32
    ensures Issued(ToInt32(nextId), sends + 1)
  {
    assert ToInt32(sends + 1) == ToInt32(nextId);
  }

  lemma SendIssued(w: World, op: Op, p: PendingNotification)
    requires op.SendOp? && op.sender in w.store.notifications
    requires IdsIssued(w) && SendIsSafe(w.store, op)
    requires Resolves(SendTo(w.store, Tweet(op), op.followers).notifications, p)
    ensures Issued(p.notificationId, w.sends + 1)
  {
    SendLookup(w.store, op, p);
    if Resolves(w.store.notifications, p) {
      StillIssued(p.notificationId, w.sends);
    } else {
      JustIssued(w.store.nextId, w.sends);
    }
  }

  lemma SendIds(w: World, op: Op)
    requires op.SendOp? && op.sender in w.store.notifications
    requires IdsIssued(w) && SendIsSafe(w.store, op)
    ensures IdsIssued(StepSend(w, op))
  {
    var w' := StepSend(w, op);
    forall p | Resolves(w'.store.notifications, p) ensures Issued(p.notificationId, w'.sends) {
      SendIssued(w, op, p);
    }
  }

  lemma SendDomains(w: World, op: Op)
    requires op.SendOp? && op.sender in w.store.notifications && Domains(w)
    ensures Domains(StepSend(w, op))
  {
    InsertAllKeys(w.store.queues, Created(w.store, op), op.followers);
  }

  lemma SendConserved(w: World, op: Op)
    requires op.SendOp? && op.sender in w.store.notifications
    requires Conserved(w) && SendIsSafe(w.store, op)
    ensures Conserved(StepSend(w, op))
  {
    forall p ensures CountIsRight(StepSend(w, op), p) {
      SendCounts(w, op, p);
    }
  }

  lemma SendNothingLost(w: World, op: Op)
    requires op.SendOp? && op.sender in w.store.notifications
    requires Domains(w) && Conserved(w) && NothingLost(w) && Settled(w) && SendIsSafe(w.store, op)
    ensures Domains(StepSend(w, op)) && NothingLost(StepSend(w, op))
  {
    var w' := StepSend(w, op);
    SendDomains(w, op);
    forall u | u in w'.store.queues ensures UserHasAll(w', u) {
      assert u in w.store.queues;
      assert UserHasAll(w, u);
      if Online(w.store.queues[u]) {
        SendMailboxOnline(w, op, u);
      } else {
        SendMailboxOffline(w, op, u);
      }
    }
  }

  lemma SendStreamsAll(w: World, op: Op)
    requires op.SendOp? && op.sender in w.store.notifications && Domains(w) && Streams(w)
    ensures Domains(StepSend(w, op)) && Streams(StepSend(w, op))
  {
    var w' := StepSend(w, op);
    SendDomains(w, op);
    forall u, k | u in w'.store.queues && k in w'.store.queues[u].subscribers ensures StreamIsRun(w', u, k) {
      InsertAllAt(w.store.queues, Created(w.store, op), op.followers, u);
      assert StreamIsRun(w, u, k);
      SendStreams(w, op, u, k);
    }
  }

  lemma SendSettled(w: World, op: Op)
    requires op.SendOp? && op.sender in w.store.notifications && Domains(w) && Settled(w)
    ensures Settled(StepSend(w, op))
  {
    var w' := StepSend(w, op);
    SendDomains(w, op);
    forall u | u in w'.store.queues && Online(w'.store.queues[u]) ensures w'.store.queues[u].pending == [] {
      InsertAllAt(w.store.queues, Created(w.store, op), op.followers, u);
    }
  }

  lemma SendKeepsInv(w: World, op: Op)
    requires op.SendOp? && Inv(w)
    requires op.sender in w.store.notifications ==> SendIsSafe(w.store, op)
    ensures Inv(StepSend(w, op))
  {
    if op.sender in w.store.notifications {
      SendConserved(w, op);
      SendUnique(w, op);
      SendNothingLost(w, op);
      SendStreamsAll(w, op);
      SendSettled(w, op);
      SendIds(w, op);
    }
  }

  /** An id that is still in use breaks the store, exactly when some follower has to wait. */
  lemma SendKeepsInvExactly(w: World, op: Op)
    requires op.SendOp? && Inv(w)
    ensures Inv(StepSend(w, op)) <==> op.sender !in w.store.notifications || SendIsSafe(w.store, op)
  {
    if op.sender !in w.store.notifications || SendIsSafe(w.store, op) {
      SendKeepsInv(w, op);
    } else {
      var list := w.store.notifications[op.sender];
      var list' := StepSend(w, op).store.notifications[op.sender];
      var i := IndexOf(list, ToInt32(w.store.nextId));
      assert list'[i].id == list'[|list|].id;
      assert !UniqueIds(list');
    }
  }

  /** The first 2^32 notifications never meet an id in use. */
  lemma FreshWhileNotWrapped(w: World, op: Op)
    requires op.SendOp? && Inv(w) && w.sends < TWO_32
    ensures SendIsSafe(w.store, op)
  {
    var id := ToInt32(w.store.nextId);
    forall k: nat | 1 <= k <= w.sends ensures ToInt32(k) != id {
      NotAgain(k, w.sends);
    }
    assert !Issued(id, w.sends);
  }

  lemma NotAgain(k: nat, sends: nat)
    requires 1 <= k <= sends < TWO_32
    ensures ToInt32(k) != ToInt32((sends + 1) % TWO_32)
  {
  }
}
