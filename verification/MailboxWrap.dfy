/** Why the ids have to be free: a run in which they wrap around, and a notification is shown twice. */
module MailboxWrap {
  import opened Integers
  import opened NotificationStore
  import opened Mailboxes
  import opened MailboxProofs
  import opened MailboxRuns

  function First(a: string, message: string): Notification {
    Notification(1, 0, a, 1, message)
  }

  /** A send that nobody follows. */
  function Silent(a: string): Op {
    SendOp(a, 0, "", [])
  }

  /** `b` follows `a` and is offline: one notification for `b`, then `k` that nobody gets. */
  function Quieter(a: string, b: string, message: string, k: nat): seq<Op> {
    [LoadUsersOp([a, b]), SendOp(a, 0, message, [b])] + seq(k, _ => Silent(a))
  }

  /** The store all along: `b` waits for the first notification. */
  function Waiting(a: string, b: string, message: string, k: nat): Store {
    Store((2 + k) % TWO_32, map[a := [First(a, message)], b := []],
          map[a := EMPTY_INBOX, b := Inbox(map[], [PendingNotification(a, 1)])])
  }

  lemma LoadBoth(a: string, b: string)
    requires a != b
    ensures
      var w := Step(INITIAL_WORLD, LoadUsersOp([a, b]));
      && w.store == Store(1, map[a := [], b := []], map[a := EMPTY_INBOX, b := EMPTY_INBOX])
      && w.sent == map[a := [], b := []] && w.delivered == map[a := [], b := []] && w.sends == 0
  {
    assert [a, b][..1] == [a] && [a][..0] == [];
    assert LoadUsers(INITIAL_STORE, [a]) == Store(1, map[a := []], map[a := EMPTY_INBOX]);
    assert LoadUsers(INITIAL_STORE, [a, b]) == Store(1, map[a := [], b := []], map[a := EMPTY_INBOX, b := EMPTY_INBOX]);
    var none: map<string, seq<Mail>> := map[];
    assert RegisterAll(none, [a]) == map[a := []];
    assert RegisterAll(none, [a, b]) == map[a := [], b := []];
  }

  /** The one follower is offline, and gets a reference. */
  lemma FirstSend(w: World, a: string, b: string, message: string)
    requires a != b && w.sent == map[a := [], b := []]
    requires w.store == Store(1, map[a := [], b := []], map[a := EMPTY_INBOX, b := EMPTY_INBOX])
    ensures
      var w' := Step(w, SendOp(a, 0, message, [b]));
      && w'.store == Waiting(a, b, message, 0)
      && b in w'.sent && w'.sent[b] == [Mail(1, a, 0, message)]
  {
    var op := SendOp(a, 0, message, [b]);
    var created := Tweet(op).(id := 1);
    assert [b][..0] == [] && multiset([b])[b] == 1;
    assert SentCount(w.store.queues, [b]) == 0;
    assert InsertAll(w.store.queues, created, [b]) == w.store.queues[b := Insert(EMPTY_INBOX, created)];
    assert Insert(EMPTY_INBOX, created) == Inbox(map[], [PendingNotification(a, 1)]);
    assert SendTo(w.store, Tweet(op), [b]).queues == Waiting(a, b, message, 0).queues;
    assert [] + [First(a, message)] == [First(a, message)];
    assert SendTo(w.store, Tweet(op), [b]).notifications == Waiting(a, b, message, 0).notifications;
    assert Copies(Mail(1, a, 0, message), [b], b) == [Mail(1, a, 0, message)];
  }

  lemma SilentSend(w: World, a: string, b: string, message: string, k: nat)
    requires a != b && w.store == Waiting(a, b, message, k) && b in w.sent
    ensures
      var w' := Step(w, Silent(a));
      w'.store == Waiting(a, b, message, k + 1) && b in w'.sent && w'.sent[b] == w.sent[b]
  {
    assert Copies(NewMail(w.store, Silent(a)), [], b) == [];
    assert InsertAll(w.store.queues, Tweet(Silent(a)).(id := ToInt32(w.store.nextId)), []) == w.store.queues;
    assert w.store.notifications[a := w.store.notifications[a]] == w.store.notifications;
  }

  lemma {:induction false} StaysWaiting(a: string, b: string, message: string, k: nat)
    requires a != b
    ensures
      var w := Run(Quieter(a, b, message, k));
      && w.store == Waiting(a, b, message, k)
      && b in w.sent && w.sent[b] == [Mail(1, a, 0, message)]
  {
    var ops := Quieter(a, b, message, k);
    if k == 0 {
      assert ops == [LoadUsersOp([a, b]), SendOp(a, 0, message, [b])];
      var load: seq<Op> := ops[..1];
      assert load[..0] == [] && load[0] == LoadUsersOp([a, b]);
      assert Run(load) == Step(INITIAL_WORLD, LoadUsersOp([a, b]));
      LoadBoth(a, b);
      FirstSend(Run(load), a, b, message);
    } else {
      StaysWaiting(a, b, message, k - 1);
      assert ops[..|ops| - 1] == Quieter(a, b, message, k - 1);
      SilentSend(Run(ops[..|ops| - 1]), a, b, message, k - 1);
    }
  }

  /** When 2^32 ids have been given out, the next one is the first again. */
  function Wrapped(a: string, b: string, first: string, second: string): seq<Op> {
    Quieter(a, b, first, TWO_32 - 1) + [SendOp(a, 0, second, [b])]
  }

  lemma SecondSend(w: World, a: string, b: string, first: string, second: string)
    requires a != b && w.store == Waiting(a, b, first, TWO_32 - 1)
    requires b in w.sent && w.sent[b] == [Mail(1, a, 0, first)]
    ensures
      var w' := Step(w, SendOp(a, 0, second, [b]));
      && b in w'.sent && w'.sent[b] == [Mail(1, a, 0, first), Mail(1, a, 0, second)]
      && b in w'.store.queues
      && Resolve(w'.store.notifications, w'.store.queues[b].pending) == [Mail(1, a, 0, first), Mail(1, a, 0, first)]
    ensures !SendIsSafe(w.store, SendOp(a, 0, second, [b]))
  {
    var op := SendOp(a, 0, second, [b]);
    var created, p := Tweet(op).(id := 1), PendingNotification(a, 1);
    assert w.store.nextId == 1;
    assert [b][..0] == [] && multiset([b])[b] == 1;
    assert SentCount(w.store.queues, [b]) == 0;
    assert Copies(Mail(1, a, 0, second), [b], b) == [Mail(1, a, 0, second)];
    assert InsertAll(w.store.queues, created, [b]) == w.store.queues[b := Insert(w.store.queues[b], created)];
    var w' := Step(w, op);
    assert w'.store.queues[b].pending == [p, p];
    assert w'.store.notifications[a] == [First(a, first), created];
    assert IndexOf(w'.store.notifications[a], 1) == 0;
    assert Deref(w'.store.notifications, p) == Mail(1, a, 0, first);
  }

  /**
   * The bound of 2^32 sends cannot be raised: one more send, and the follower is shown the first
   * notification twice and the last one never.
   */
  lemma OneSendTooMany(a: string, b: string, first: string, second: string)
    requires a != b && first != second
    ensures
      var ops := Wrapped(a, b, first, second);
      var w := Run(ops);
      && SendCount(ops) == TWO_32 + 1 && !IdsFree(ops) && !Inv(w)
      && b in w.sent && w.sent[b] == [Mail(1, a, 0, first), Mail(1, a, 0, second)]
      && b in w.store.queues
      && Resolve(w.store.notifications, w.store.queues[b].pending) == [Mail(1, a, 0, first), Mail(1, a, 0, first)]
  {
    var ops := Wrapped(a, b, first, second);
    var front, op := Quieter(a, b, first, TWO_32 - 1), SendOp(a, 0, second, [b]);
    assert ops[..|ops| - 1] == front;
    StaysWaiting(a, b, first, TWO_32 - 1);
    SecondSend(Run(front), a, b, first, second);
    CountSends(a, b, first, TWO_32 - 1);
    FewSendsAreFree(front);
    RunKeepsInv(front);
    SendKeepsInvExactly(Run(front), op);
  }

  lemma {:induction false} CountSends(a: string, b: string, message: string, k: nat)
    ensures SendCount(Quieter(a, b, message, k)) == k + 1
  {
    var ops := Quieter(a, b, message, k);
    if k == 0 {
      assert ops[..1][..0] == [];
      assert SendCount(ops[..1]) == 0;
    } else {
      assert ops[..|ops| - 1] == Quieter(a, b, message, k - 1);
      CountSends(a, b, message, k - 1);
    }
  }
}
