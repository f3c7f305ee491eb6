/** Subscribing hands over everything that was pending, and keeps the mailbox invariant. */
module DrainProofs {
  import opened NotificationStore
  import opened References
  import opened Mailboxes
  import opened MailboxProofs

  lemma IndexOfUnique(list: seq<Notification>, i: int)
    requires UniqueIds(list) && 0 <= i < |list|
    ensures IndexOf(list, list[i].id) == i
  {
  }

  lemma RemovedUnique(list: seq<Notification>, i: int)
    requires UniqueIds(list) && 0 <= i < |list|
    ensures UniqueIds(list[..i] + list[i + 1..])
  {
    var shorter := list[..i] + list[i + 1..];
    forall j, k | 0 <= j < k < |shorter| ensures shorter[j].id != shorter[k].id {
      assert shorter[j] == list[if j < i then j else j + 1];
      assert shorter[k] == list[if k < i then k else k + 1];
    }
  }

  lemma RemovedIndexOf(list: seq<Notification>, i: int, id: int)
    requires UniqueIds(list) && 0 <= i < |list|
    ensures
      var shorter := list[..i] + list[i + 1..];
      if id == list[i].id then IndexOf(shorter, id) == -1
      else (IndexOf(shorter, id) != -1 <==> IndexOf(list, id) != -1)
           && (IndexOf(list, id) != -1 ==> shorter[IndexOf(shorter, id)] == list[IndexOf(list, id)])
  {
    var shorter := list[..i] + list[i + 1..];
    RemovedUnique(list, i);
    var j, k := IndexOf(list, id), IndexOf(shorter, id);
    if k != -1 {
      assert shorter[k] == list[if k < i then k else k + 1];
      IndexOfUnique(list, if k < i then k else k + 1);
    }
    if j != -1 && j != i {
      assert shorter[if j < i then j else j - 1] == list[j];
    }
  }

  lemma UpdatedIndexOf(list: seq<Notification>, i: int, n: Notification, id: int)
    requires UniqueIds(list) && 0 <= i < |list| && n.id == list[i].id
    ensures IndexOf(list[i := n], id) == IndexOf(list, id)
    ensures id == n.id ==> IndexOf(list, id) == i
  {
    var list' := list[i := n];
    assert forall j :: 0 <= j < |list| ==> list'[j].id == list[j].id;
    var j := IndexOf(list, id);
    if j != -1 {
      IndexOfUnique(list', j);
    }
  }

  /** Counting `p` down changes the count of what `p` leads to, and nothing else. */
  lemma CountDownLookup(ns: map<string, seq<Notification>>, p: PendingNotification, q: PendingNotification)
    requires Unique(ns) && Resolves(ns, p)
    ensures
      var ns' := CountDown(ns, p);
      var n := Lookup(ns, p);
      if q != p then (Resolves(ns', q) <==> Resolves(ns, q)) && (Resolves(ns, q) ==> Lookup(ns', q) == Lookup(ns, q))
      else (Resolves(ns', p) <==> n.pendingCount > 1)
           && (Resolves(ns', p) ==> Lookup(ns', p) == n.(pendingCount := n.pendingCount - 1))
  {
    var list := ns[p.sender];
    var i := IndexOf(list, p.notificationId);
    assert UniqueIds(list);
    if q.sender == p.sender {
      if list[i].pendingCount - 1 <= 0 {
        RemovedIndexOf(list, i, q.notificationId);
      } else {
        UpdatedIndexOf(list, i, list[i].(pendingCount := list[i].pendingCount - 1), q.notificationId);
      }
    }
  }

  lemma CountDownUnique(ns: map<string, seq<Notification>>, p: PendingNotification)
    requires Unique(ns) && Resolves(ns, p)
    ensures Unique(CountDown(ns, p)) && CountDown(ns, p).Keys == ns.Keys
  {
    var list := ns[p.sender];
    assert UniqueIds(list);
    RemovedUnique(list, IndexOf(list, p.notificationId));
  }

  /** One round of the drain loop, with the history of what was handed over. */
  function Handover(w: World, u: string): World
    requires u in w.store.queues && u in w.delivered && w.store.queues[u].pending != []
  {
    w.(store := DrainOne(w.store, u),
       delivered := w.delivered[u :=
         w.delivered[u] + [Deref(w.store.notifications, w.store.queues[u].pending[0])]])
  }

  lemma HandoverCounts(w: World, u: string, q: PendingNotification)
    requires Domains(w) && Conserved(w) && Unique(w.store.notifications)
    requires u in w.store.queues && w.store.queues[u].pending != []
    ensures CountIsRight(Handover(w, u), q)
  {
    var box := w.store.queues[u];
    var p := box.pending[0];
    PendingResolves(w, u, p);
    assert CountIsRight(w, q) && CountIsRight(w, p);
    CountDownLookup(w.store.notifications, p, q);
    OccurrencesPop(box, q);
    var after := DrainOne(w.store, u).queues[u];
    RefsUpdate(w.store.queues, u, after, q);
  }

  lemma HandoverDeref(w: World, u: string, v: string, q: PendingNotification)
    requires Domains(w) && Conserved(w) && Unique(w.store.notifications)
    requires u in w.store.queues && w.store.queues[u].pending != []
    requires v in w.store.queues && q in DrainOne(w.store, u).queues[v].pending
    ensures Deref(DrainOne(w.store, u).notifications, q) == Deref(w.store.notifications, q)
  {
    var w' := Handover(w, u);
    var p := w.store.queues[u].pending[0];
    PendingResolves(w, u, p);
    CountDownLookup(w.store.notifications, p, q);
    HandoverCounts(w, u, q);
    RefsAtLeast(w'.store.queues, v, q);
  }

  lemma HandoverResolve(w: World, u: string, v: string)
    requires Domains(w) && Conserved(w) && Unique(w.store.notifications)
    requires u in w.store.queues && w.store.queues[u].pending != [] && v in w.store.queues
    ensures
      var ns, ns', ps := w.store.notifications, DrainOne(w.store, u).notifications, w.store.queues[v].pending;
      if v == u then Resolve(ns, ps) == [Deref(ns, ps[0])] + Resolve(ns', ps[1..])
      else Resolve(ns', ps) == Resolve(ns, ps)
  {
    var ns, ns', ps := w.store.notifications, DrainOne(w.store, u).notifications, w.store.queues[v].pending;
    var left := DrainOne(w.store, u).queues[v].pending;
    forall q | q in left ensures Deref(ns, q) == Deref(ns', q) {
      HandoverDeref(w, u, v, q);
    }
    ResolveSame(ns, ns', left);
  }

  lemma HandoverStream(w: World, u: string, v: string, k: nat)
    requires Domains(w) && Conserved(w)
    requires u in w.store.queues && w.store.queues[u].pending != []
    requires v in w.store.queues && k in w.store.queues[v].subscribers && StreamIsRun(w, v, k)
    ensures k in Handover(w, u).store.queues[v].subscribers && StreamIsRun(Handover(w, u), v, k)
  {
    var p := w.store.queues[u].pending[0];
    PendingResolves(w, u, p);
    if v == u {
      ContentsAppend(w.store.queues[u].subscribers[k], [Lookup(w.store.notifications, p)]);
      assert Contents([Lookup(w.store.notifications, p)]) == [Deref(w.store.notifications, p)];
    }
  }

  lemma HandoverIds(w: World, u: string)
    requires Conserved(w) && Unique(w.store.notifications) && IdsIssued(w)
    requires u in w.store.queues && u in w.delivered && w.store.queues[u].pending != []
    ensures IdsIssued(Handover(w, u))
  {
    var p := w.store.queues[u].pending[0];
    PendingResolves(w, u, p);
    forall q | Resolves(Handover(w, u).store.notifications, q) ensures Issued(q.notificationId, w.sends) {
      CountDownLookup(w.store.notifications, p, q);
    }
  }

  lemma HandoverKeepsMailboxes(w: World, u: string)
    requires Domains(w) && Conserved(w) && Unique(w.store.notifications) && NothingLost(w)
    requires u in w.store.queues && w.store.queues[u].pending != []
    ensures Domains(Handover(w, u)) && NothingLost(Handover(w, u))
  {
    var w' := Handover(w, u);
    PendingResolves(w, u, w.store.queues[u].pending[0]);
    CountDownUnique(w.store.notifications, w.store.queues[u].pending[0]);
    forall v | v in w'.store.queues ensures UserHasAll(w', v) {
      assert UserHasAll(w, v);
      HandoverResolve(w, u, v);
    }
  }

  lemma HandoverKeepsStreams(w: World, u: string)
    requires Domains(w) && Conserved(w) && Unique(w.store.notifications) && Streams(w)
    requires u in w.store.queues && w.store.queues[u].pending != []
    ensures Domains(Handover(w, u)) && Streams(Handover(w, u))
  {
    var w' := Handover(w, u);
    PendingResolves(w, u, w.store.queues[u].pending[0]);
    CountDownUnique(w.store.notifications, w.store.queues[u].pending[0]);
    forall v, k | v in w'.store.queues && k in w'.store.queues[v].subscribers ensures StreamIsRun(w', v, k) {
      assert k in w.store.queues[v].subscribers;
      assert StreamIsRun(w, v, k);
      HandoverStream(w, u, v, k);
    }
  }

  lemma HandoverKeeps(w: World, u: string)
    requires Consistent(w) && u in w.store.queues && w.store.queues[u].pending != []
    ensures Consistent(Handover(w, u))
  {
    PendingResolves(w, u, w.store.queues[u].pending[0]);
    CountDownUnique(w.store.notifications, w.store.queues[u].pending[0]);
    forall q ensures CountIsRight(Handover(w, u), q) {
      HandoverCounts(w, u, q);
    }
    HandoverKeepsMailboxes(w, u);
    HandoverKeepsStreams(w, u);
    HandoverIds(w, u);
  }

  function Drained(w: World, u: string): World
    requires u in w.store.queues && u in w.delivered
  {
    w.(store := Drain(w.store, u),
       delivered := w.delivered[u :=
         w.delivered[u] + Resolve(w.store.notifications, w.store.queues[u].pending)])
  }

  lemma DrainedAtEnd(w: World, u: string)
    requires Domains(w) && u in w.store.queues && w.store.queues[u].pending == []
    ensures Drained(w, u) == w
  {
    assert Resolve(w.store.notifications, []) == [];
    assert w.delivered[u] + [] == w.delivered[u];
    assert w.delivered[u := w.delivered[u]] == w.delivered;
  }

  lemma DrainedStep(w: World, u: string)
    requires Domains(w) && Conserved(w) && Unique(w.store.notifications)
    requires u in w.store.queues && w.store.queues[u].pending != []
    ensures Drained(Handover(w, u), u) == Drained(w, u)
  {
    var w1 := Handover(w, u);
    var p := w.store.queues[u].pending[0];
    PendingResolves(w, u, p);
    HandoverResolve(w, u, u);
    var later := Resolve(w1.store.notifications, w1.store.queues[u].pending);
    assert w1.store.queues[u].pending == w.store.queues[u].pending[1..];
    assert w.delivered[u] + [Deref(w.store.notifications, p)] + later
        == w.delivered[u] + ([Deref(w.store.notifications, p)] + later);
    assert Drained(w1, u).delivered == Drained(w, u).delivered;
  }

  /** The whole drain loop: it hands over exactly what the pending references stood for. */
  lemma {:induction false} DrainKeeps(w: World, u: string)
    requires Consistent(w) && u in w.store.queues
    ensures Consistent(Drained(w, u))
    decreases |w.store.queues[u].pending|
  {
    if w.store.queues[u].pending == [] {
      DrainedAtEnd(w, u);
    } else {
      HandoverKeeps(w, u);
      DrainedStep(w, u);
      DrainKeeps(Handover(w, u), u);
    }
  }

  /** Afterwards nothing is pending for that user, and every other user's inbox is as before. */
  lemma {:induction false} DrainEffect(st: Store, u: string)
    requires u in st.queues
    ensures
      var st' := Drain(st, u);
      && st'.queues.Keys == st.queues.Keys
      && st'.queues[u].pending == []
      && st'.queues[u].subscribers.Keys == st.queues[u].subscribers.Keys
      && forall v :: v in st.queues && v != u ==> st'.queues[v] == st.queues[v]
    decreases |st.queues[u].pending|
  {
    if st.queues[u].pending != [] {
      DrainEffect(DrainOne(st, u), u);
    }
  }

  /** The world right after the session's queue is added, before anything is handed over. */
  function Added(w: World, u: string, sessionId: nat): World
    requires u in w.store.queues && u in w.delivered
  {
    w.(store := w.store.(queues := w.store.queues[u := SubscribeQueue(w.store.queues[u], Key(sessionId), [])]),
       starts := if Key(sessionId) in w.store.queues[u].subscribers then w.starts
                 else w.starts[(u, Key(sessionId)) := |w.delivered[u]|])
  }

  lemma AddedConserved(w: World, u: string, sessionId: nat)
    requires Conserved(w) && u in w.store.queues && u in w.delivered
    ensures Conserved(Added(w, u, sessionId))
  {
    var w' := Added(w, u, sessionId);
    forall p ensures CountIsRight(w', p) {
      assert CountIsRight(w, p);
      RefsUpdate(w.store.queues, u, w'.store.queues[u], p);
    }
  }

  lemma AddedStreams(w: World, u: string, sessionId: nat)
    requires Domains(w) && Streams(w) && u in w.store.queues
    ensures Domains(Added(w, u, sessionId)) && Streams(Added(w, u, sessionId))
  {
    var w' := Added(w, u, sessionId);
    forall v, k | v in w'.store.queues && k in w'.store.queues[v].subscribers ensures StreamIsRun(w', v, k) {
      if k in w.store.queues[v].subscribers {
        assert StreamIsRun(w, v, k);
      }
    }
  }

  lemma AddedNothingLost(w: World, u: string, sessionId: nat)
    requires Domains(w) && NothingLost(w) && u in w.store.queues
    ensures Domains(Added(w, u, sessionId)) && NothingLost(Added(w, u, sessionId))
  {
    var w' := Added(w, u, sessionId);
    forall v | v in w'.store.queues ensures UserHasAll(w', v) {
      assert UserHasAll(w, v);
    }
  }

  lemma AddedKeeps(w: World, u: string, sessionId: nat)
    requires Consistent(w) && u in w.store.queues
    ensures Consistent(Added(w, u, sessionId))
  {
    AddedConserved(w, u, sessionId);
    AddedNothingLost(w, u, sessionId);
    AddedStreams(w, u, sessionId);
  }

  lemma SubscribeExisting(w: World, u: string, sessionId: nat)
    requires Inv(w) && u in w.store.queues
    ensures Inv(Drained(Added(w, u, sessionId), u))
  {
    AddedKeeps(w, u, sessionId);
    DrainKeeps(Added(w, u, sessionId), u);
    DrainEffect(Added(w, u, sessionId).store, u);
  }

  lemma SubscribeKeepsInv(w: World, u: string, sessionId: nat)
    requires Inv(w)
    ensures Inv(StepSubscribe(w, u, sessionId))
  {
    if u in w.store.queues {
      SubscribeExisting(w, u, sessionId);
      assert StepSubscribe(w, u, sessionId) == Drained(Added(w, u, sessionId), u);
    } else {
      NewUserKeeps(w, u, SubscribeQueue(EMPTY_INBOX, Key(sessionId), []), w.starts[(u, Key(sessionId)) := 0]);
    }
  }

  predicate SameLookup(ns: map<string, seq<Notification>>, ns': map<string, seq<Notification>>, p: PendingNotification) {
    && (Resolves(ns', p) <==> Resolves(ns, p))
    && (Resolves(ns, p) ==> Lookup(ns', p) == Lookup(ns, p))
  }

  lemma NewUserLookup(ns: map<string, seq<Notification>>, u: string, p: PendingNotification)
    requires u !in ns
    ensures SameLookup(ns, ns[u := []], p)
  {
  }

  function NewUser(w: World, u: string, q: Inbox, starts: map<(string, nat), nat>): World {
    w.(store := w.store.(notifications := w.store.notifications[u := []], queues := w.store.queues[u := q]),
       sent := w.sent[u := []], delivered := w.delivered[u := []], starts := starts)
  }

  lemma NewUserCounts(w: World, u: string, q: Inbox, starts: map<(string, nat), nat>)
    requires Domains(w) && Conserved(w) && u !in w.store.queues && q.pending == []
    ensures Conserved(NewUser(w, u, q, starts))
  {
    forall p ensures CountIsRight(NewUser(w, u, q, starts), p) {
      assert CountIsRight(w, p);
      NewUserLookup(w.store.notifications, u, p);
      RefsUpdate(w.store.queues, u, q, p);
    }
  }

  lemma NewUserMailboxes(w: World, u: string, q: Inbox, starts: map<(string, nat), nat>)
    requires Domains(w) && NothingLost(w) && u !in w.store.queues && q.pending == []
    ensures NothingLost(NewUser(w, u, q, starts))
  {
    var w' := NewUser(w, u, q, starts);
    var ns, ns' := w.store.notifications, w'.store.notifications;
    forall v | v in w'.store.queues ensures UserHasAll(w', v) {
      if v != u {
        assert UserHasAll(w, v);
        forall p | p in w.store.queues[v].pending ensures Deref(ns, p) == Deref(ns', p) {
          NewUserLookup(ns, u, p);
        }
        ResolveSame(ns, ns', w.store.queues[v].pending);
      } else {
        assert Resolve(ns', []) == [];
      }
    }
  }

  lemma NewUserIds(w: World, u: string, q: Inbox, starts: map<(string, nat), nat>)
    requires Domains(w) && IdsIssued(w) && u !in w.store.queues
    ensures IdsIssued(NewUser(w, u, q, starts))
  {
    var w' := NewUser(w, u, q, starts);
    forall p | Resolves(w'.store.notifications, p) ensures Issued(p.notificationId, w.sends) {
      NewUserLookup(w.store.notifications, u, p);
    }
  }

  lemma NewUserStreams(w: World, u: string, q: Inbox, starts: map<(string, nat), nat>)
    requires Domains(w) && Streams(w) && u !in w.store.queues
    requires forall k :: k in q.subscribers ==> q.subscribers[k] == [] && (u, k) in starts && starts[(u, k)] == 0
    requires forall v, k :: v != u && (v, k) in w.starts ==> (v, k) in starts && starts[(v, k)] == w.starts[(v, k)]
    ensures Streams(NewUser(w, u, q, starts))
  {
    var w' := NewUser(w, u, q, starts);
    forall v, k | v in w'.store.queues && k in w'.store.queues[v].subscribers ensures StreamIsRun(w', v, k) {
      if v != u {
        assert StreamIsRun(w, v, k);
      }
    }
  }

  /** A new user with no pending references, and with sessions that are empty and start at 0. */
  lemma NewUserKeeps(w: World, u: string, q: Inbox, starts: map<(string, nat), nat>)
    requires Inv(w) && u !in w.store.queues
    requires q.pending == []
    requires forall k :: k in q.subscribers ==> q.subscribers[k] == [] && (u, k) in starts && starts[(u, k)] == 0
    requires forall v, k :: v != u && (v, k) in w.starts ==> (v, k) in starts && starts[(v, k)] == w.starts[(v, k)]
    ensures Inv(NewUser(w, u, q, starts))
  {
    NewUserCounts(w, u, q, starts);
    NewUserMailboxes(w, u, q, starts);
    NewUserIds(w, u, q, starts);
    NewUserStreams(w, u, q, starts);
  }
}
