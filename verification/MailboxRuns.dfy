/** The mailbox theorems over every run of the notification store, failovers included. */
module MailboxRuns {
  import opened Sequences
  import opened Integers
  import opened NotificationStore
  import opened References
  import opened Mailboxes
  import opened MailboxProofs
  import opened DrainProofs

  lemma SubscribersGone(w: World, queues: map<string, Inbox>)
    requires Inv(w) && queues.Keys == w.store.queues.Keys
    requires forall u :: u in queues ==>
      && queues[u].pending == w.store.queues[u].pending
      && queues[u].subscribers.Keys <= w.store.queues[u].subscribers.Keys
      && forall k :: k in queues[u].subscribers ==> queues[u].subscribers[k] == w.store.queues[u].subscribers[k]
    ensures Inv(w.(store := w.store.(queues := queues)))
  {
    var w' := w.(store := w.store.(queues := queues));
    assert Conserved(w') by {
      forall p ensures CountIsRight(w', p) {
        assert CountIsRight(w, p);
        RefsSame(queues, w.store.queues, queues.Keys, p);
      }
    }
    assert NothingLost(w') by {
      forall u | u in queues ensures UserHasAll(w', u) {
        assert UserHasAll(w, u);
      }
    }
    assert Streams(w') by {
      forall u, k | u in queues && k in queues[u].subscribers ensures StreamIsRun(w', u, k) {
        assert k in w.store.queues[u].subscribers;
        assert StreamIsRun(w, u, k);
      }
    }
  }

  lemma UnsubscribeKeepsInv(w: World, u: string, sessionId: nat)
    requires Inv(w)
    ensures Inv(Step(w, UnsubscribeOp(u, sessionId)))
  {
    SubscribersGone(w, Unsubscribe(w.store, u, sessionId).queues);
    assert Step(w, UnsubscribeOp(u, sessionId)) == w.(store := w.store.(queues := Unsubscribe(w.store, u, sessionId).queues));
  }

  /** Losing every session at once, as a backup that takes over does, keeps the mailboxes. */
  lemma FailoverKeepsInv(w: World)
    requires Inv(w)
    ensures Inv(Step(w, FailoverOp))
  {
    SubscribersGone(w, Replicated(w.store).queues);
  }

  lemma {:induction false} LoadUsersKeepsInv(w: World, usernames: seq<string>)
    requires Inv(w)
    ensures Inv(Step(w, LoadUsersOp(usernames)))
    decreases |usernames|
  {
    if usernames == [] {
      assert Step(w, LoadUsersOp(usernames)) == w;
    } else {
      var front, u := usernames[..|usernames| - 1], usernames[|usernames| - 1];
      LoadUsersKeepsInv(w, front);
      var w1 := Step(w, LoadUsersOp(front));
      var w2 := Step(w, LoadUsersOp(usernames));
      if u in w1.store.queues {
        assert w2 == w1;
      } else {
        NewUserKeeps(w1, u, EMPTY_INBOX, w1.starts);
        assert w2 == NewUser(w1, u, EMPTY_INBOX, w1.starts);
      }
    }
  }

  lemma InitialInv()
    ensures Inv(INITIAL_WORLD)
  {
    forall p ensures CountIsRight(INITIAL_WORLD, p) {
      assert RefsIn(map[], {}, p) == 0;
    }
  }

  function SendCount(ops: seq<Op>): (c: nat)
    ensures c <= |ops|
  {
    if ops == [] then 0
    else SendCount(ops[..|ops| - 1]) + if ops[|ops| - 1].SendOp? then 1 else 0
  }

  /** The operation is no send, or one whose id no stored notification of the sender has while somebody waits. */
  predicate IdFree(w: World, op: Op) {
    op.SendOp? && op.sender in w.store.notifications ==> SendIsSafe(w.store, op)
  }

  predicate IdsFree(ops: seq<Op>) {
    ops == [] || (IdsFree(ops[..|ops| - 1]) && IdFree(Run(ops[..|ops| - 1]), ops[|ops| - 1]))
  }

  lemma StepKeepsInv(w: World, op: Op)
    requires Inv(w) && IdFree(w, op)
    ensures Inv(Step(w, op))
  {
    match op
    case LoadUsersOp(usernames) => LoadUsersKeepsInv(w, usernames);
    case SubscribeOp(u, sessionId) => SubscribeKeepsInv(w, u, sessionId);
    case UnsubscribeOp(u, sessionId) => UnsubscribeKeepsInv(w, u, sessionId);
    case SendOp(_, _, _, _) => SendKeepsInv(w, op);
    case FailoverOp => FailoverKeepsInv(w);
  }

  /**
   * The main theorem.  In every run, of any length, in which no send gives out an id that is still in use,
   * the counts, the references and the mailboxes agree.
   */
  lemma {:induction false} RunKeepsInv(ops: seq<Op>)
    requires IdsFree(ops)
    ensures Inv(Run(ops))
  {
    if ops == [] {
      InitialInv();
    } else {
      RunKeepsInv(ops[..|ops| - 1]);
      StepKeepsInv(Run(ops[..|ops| - 1]), ops[|ops| - 1]);
    }
  }

  lemma StepKeepsInvExactly(w: World, op: Op)
    requires Inv(w)
    ensures IdFree(w, op) <==> Inv(Step(w, op))
  {
    if IdFree(w, op) {
      StepKeepsInv(w, op);
    } else {
      SendKeepsInvExactly(w, op);
    }
  }

  ghost predicate InvAfter(ops: seq<Op>) {
    Inv(Run(ops))
  }

  ghost predicate AllAlong(good: seq<Op> -> bool, ops: seq<Op>) {
    forall k :: 0 <= k <= |ops| ==> good(ops[..k])
  }

  lemma AllAlongStep(good: seq<Op> -> bool, ops: seq<Op>)
    requires ops != []
    ensures AllAlong(good, ops) <==> AllAlong(good, ops[..|ops| - 1]) && good(ops)
  {
    var front := ops[..|ops| - 1];
    assert ops[..|ops|] == ops;
    forall k | 0 <= k <= |front| ensures good(front[..k]) == good(ops[..k]) {
      assert front[..k] == ops[..k];
    }
  }

  /** And in no other: the invariant holds all along exactly when no id is given out while it is in use. */
  lemma {:induction false} IdsFreeExactly(ops: seq<Op>)
    ensures IdsFree(ops) <==> AllAlong(InvAfter, ops)
  {
    if ops == [] {
      InitialInv();
      assert InvAfter([]);
    } else {
      var front := ops[..|ops| - 1];
      IdsFreeExactly(front);
      AllAlongStep(InvAfter, ops);
      if IdsFree(front) {
        RunKeepsInv(front);
        StepKeepsInvExactly(Run(front), ops[|ops| - 1]);
      }
    }
  }

  lemma SendsCounted(w: World, op: Op)
    ensures Step(w, op).sends <= w.sends + if op.SendOp? then 1 else 0
  {
  }

  /** Ids cannot be in use again during the first 2^32 sends. */
  lemma {:induction false} FewSendsAreFree(ops: seq<Op>)
    requires SendCount(ops) <= TWO_32
    ensures IdsFree(ops) && Run(ops).sends <= SendCount(ops)
  {
    if ops != [] {
      var front, op := ops[..|ops| - 1], ops[|ops| - 1];
      FewSendsAreFree(front);
      RunKeepsInv(front);
      SendsCounted(Run(front), op);
      if op.SendOp? {
        FreshWhileNotWrapped(Run(front), op);
      }
    }
  }

  lemma FreeWithout(ops: seq<Op>, op: Op)
    requires IdsFree(ops) && !op.SendOp?
    ensures IdsFree(ops + [op]) && Run(ops + [op]) == Step(Run(ops), op)
  {
    assert (ops + [op])[..|ops|] == ops;
  }

  /** For every registered user: what was delivered, then what is pending, is what was sent. */
  lemma MailboxesRefined(ops: seq<Op>, u: string)
    requires IdsFree(ops) && u in Run(ops).store.queues
    ensures
      var w := Run(ops);
      && u in w.sent && u in w.delivered
      && w.sent[u] == w.delivered[u] + Resolve(w.store.notifications, w.store.queues[u].pending)
  {
    RunKeepsInv(ops);
    assert UserHasAll(Run(ops), u);
  }

  /** A notification is stored exactly while somebody waits for it, under the right count. */
  lemma CountsConserved(ops: seq<Op>, p: PendingNotification)
    requires IdsFree(ops)
    ensures
      var w := Run(ops);
      var total := Refs(w.store.queues, p) + Missing(w, p);
      && (Resolves(w.store.notifications, p) <==> total > 0)
      && (Resolves(w.store.notifications, p) ==> Lookup(w.store.notifications, p).pendingCount == total)
    ensures p.sender in Run(ops).store.notifications ==> UniqueIds(Run(ops).store.notifications[p.sender])
  {
    RunKeepsInv(ops);
    assert CountIsRight(Run(ops), p);
    if p.sender in Run(ops).store.notifications {
      assert UniqueIds(Run(ops).store.notifications[p.sender]);
    }
  }

  // ----- sessions -----

  /** A user with a live session has nothing pending, and that session got a run of the mailbox. */
  lemma SessionStreams(ops: seq<Op>, u: string, k: nat)
    requires IdsFree(ops)
    requires u in Run(ops).store.queues && k in Run(ops).store.queues[u].subscribers
    ensures
      var w := Run(ops);
      && w.store.queues[u].pending == []
      && (u, k) in w.starts && u in w.sent && w.starts[(u, k)] <= |w.sent[u]|
      && Contents(w.store.queues[u].subscribers[k]) == w.sent[u][w.starts[(u, k)]..]
  {
    RunKeepsInv(ops);
    var w := Run(ops);
    assert StreamIsRun(w, u, k) && UserHasAll(w, u);
    assert Online(w.store.queues[u]);
    assert Resolve(w.store.notifications, []) == [];
  }

  /** A session that subscribes to an offline user's queue gets exactly what was pending. */
  lemma SubscribeDelivers(ops: seq<Op>, u: string, sessionId: nat)
    requires IdsFree(ops)
    requires u in Run(ops).store.queues && Key(sessionId) !in Run(ops).store.queues[u].subscribers
    ensures
      var w, w' := Run(ops), Run(ops + [SubscribeOp(u, sessionId)]);
      && u in w'.store.queues && Key(sessionId) in w'.store.queues[u].subscribers
      && w'.store.queues[u].pending == []
      && Contents(w'.store.queues[u].subscribers[Key(sessionId)]) ==
           Resolve(w.store.notifications, w.store.queues[u].pending)
  {
    var longer := ops + [SubscribeOp(u, sessionId)];
    FreeWithout(ops, SubscribeOp(u, sessionId));
    RunKeepsInv(ops);
    RunKeepsInv(longer);
    var w, w' := Run(ops), Run(longer);
    DrainEffect(Added(w, u, sessionId).store, u);
    assert StreamIsRun(w', u, Key(sessionId));
    assert UserHasAll(w', u);
  }

  /** After a failover nobody is connected, and a user who subscribes gets the missing rest. */
  lemma FailoverServes(ops: seq<Op>, u: string, sessionId: nat)
    requires IdsFree(ops) && u in Run(ops).store.queues
    ensures
      var w := Run(ops);
      var w' := Run(ops + [FailoverOp] + [SubscribeOp(u, sessionId)]);
      && (forall v :: v in Run(ops + [FailoverOp]).store.queues ==> !Online(Run(ops + [FailoverOp]).store.queues[v]))
      && u in w'.store.queues && Key(sessionId) in w'.store.queues[u].subscribers
      && u in w.sent && u in w.delivered && |w.delivered[u]| <= |w.sent[u]|
      && Contents(w'.store.queues[u].subscribers[Key(sessionId)]) == w.sent[u][|w.delivered[u]|..]
  {
    var failed := ops + [FailoverOp];
    FreeWithout(ops, FailoverOp);
    SubscribeDelivers(failed, u, sessionId);
    MailboxesRefined(ops, u);
  }

  /** A follower without a queue keeps a notification stored for ever. */
  lemma {:induction false} MissingKeepsStored(ops: seq<Op>, more: seq<Op>, p: PendingNotification)
    requires IdsFree(ops + more) && Missing(Run(ops), p) > 0
    ensures Resolves(Run(ops + more).store.notifications, p)
  {
    MissingStays(ops, more, p);
    CountsConserved(ops + more, p);
  }

  lemma RunOneMore(ops: seq<Op>, op: Op)
    ensures Run(ops + [op]) == Step(Run(ops), op)
  {
    assert (ops + [op])[..|ops|] == ops;
  }

  lemma {:induction false} MissingStays(ops: seq<Op>, more: seq<Op>, p: PendingNotification)
    ensures Missing(Run(ops + more), p) >= Missing(Run(ops), p)
  {
    if more == [] {
      assert ops + more == ops;
    } else {
      var front, last := more[..|more| - 1], more[|more| - 1];
      MissingStays(ops, front, p);
      assert ops + more == ops + front + [last];
      RunOneMore(ops + front, last);
      StepMissing(Run(ops + front), last, p);
    }
  }

  lemma StepMissing(w: World, op: Op, p: PendingNotification)
    ensures Missing(Step(w, op), p) >= Missing(w, p)
  {
    match op
    case LoadUsersOp(_) =>
    case SubscribeOp(_, _) =>
    case UnsubscribeOp(_, _) =>
    case SendOp(_, _, _, _) =>
    case FailoverOp =>
  }

  // ----- ids increase -----

  predicate FollowersDistinct(ops: seq<Op>) {
    forall i :: 0 <= i < |ops| && ops[i].SendOp? ==> NoRepeats(ops[i].followers)
  }

  /** The numbers of the sends that went to a user, counted from 1, once for each copy. */
  function SendNumbers(ops: seq<Op>, u: string): seq<nat> {
    if ops == [] then []
    else
      var front := ops[..|ops| - 1];
      SendNumbers(front, u) + NewNumbers(Run(front), ops[|ops| - 1], u)
  }

  /** The mailbox holds what was sent under these numbers. */
  predicate Numbered(mails: seq<Mail>, numbers: seq<nat>, sends: nat) {
    && |numbers| == |mails|
    && forall i :: 0 <= i < |mails| ==> mails[i].Mail? && mails[i].id == ToInt32(numbers[i]) && 1 <= numbers[i] <= sends
  }

  predicate Rising(numbers: seq<nat>) {
    forall i, j :: 0 <= i < j < |numbers| ==> numbers[i] < numbers[j]
  }

  lemma {:induction false} DrainNextId(st: Store, u: string)
    requires u in st.queues
    ensures Drain(st, u).nextId == st.nextId
    decreases |st.queues[u].pending|
  {
    if st.queues[u].pending != [] {
      DrainNextId(DrainOne(st, u), u);
    }
  }

  lemma {:induction false} LoadUsersNextId(st: Store, usernames: seq<string>)
    ensures LoadUsers(st, usernames).nextId == st.nextId
  {
    if usernames != [] {
      LoadUsersNextId(st, usernames[..|usernames| - 1]);
    }
  }

  predicate NextIdOk(nextId: int, sends: nat) {
    nextId == (sends + 1) % TWO_32
  }

  lemma StepNextId(w: World, op: Op)
    requires NextIdOk(w.store.nextId, w.sends)
    ensures NextIdOk(Step(w, op).store.nextId, Step(w, op).sends)
  {
    match op
    case LoadUsersOp(usernames) => LoadUsersNextId(w.store, usernames);
    case SubscribeOp(u, sessionId) =>
      if u in w.store.queues {
        DrainNextId(w.store.(queues := w.store.queues[u := SubscribeQueue(w.store.queues[u], Key(sessionId), [])]), u);
      }
    case UnsubscribeOp(_, _) =>
    case SendOp(_, _, _, _) =>
    case FailoverOp =>
  }

  lemma {:induction false} NextIdIs(ops: seq<Op>)
    ensures NextIdOk(Run(ops).store.nextId, Run(ops).sends)
  {
    if ops != [] {
      NextIdIs(ops[..|ops| - 1]);
      StepNextId(Run(ops[..|ops| - 1]), ops[|ops| - 1]);
      RunLast(ops);
    }
  }

  lemma RunLast(ops: seq<Op>)
    requires ops != []
    ensures Run(ops) == Step(Run(ops[..|ops| - 1]), ops[|ops| - 1])
  {
  }

  lemma SendNumbered(w: World, op: Op, u: string, numbers: seq<nat>)
    requires op.SendOp? && op.sender in w.store.notifications && w.store.nextId == (w.sends + 1) % TWO_32
    requires u in w.sent && Numbered(w.sent[u], numbers, w.sends)
    ensures Numbered(StepSend(w, op).sent[u], numbers + Copies(w.sends + 1, op.followers, u), w.sends + 1)
  {
    assert ToInt32(w.store.nextId) == ToInt32(w.sends + 1);
  }

  function NewNumbers(w: World, op: Op, u: string): seq<nat> {
    if op.SendOp? && op.sender in w.store.notifications && u in w.sent then Copies(w.sends + 1, op.followers, u) else []
  }

  lemma StepNumbered(w: World, op: Op, u: string, numbers: seq<nat>)
    requires w.store.nextId == (w.sends + 1) % TWO_32
    requires if u in w.sent then Numbered(w.sent[u], numbers, w.sends) else numbers == []
    ensures u !in Step(w, op).sent ==> numbers + NewNumbers(w, op, u) == []
    ensures u in Step(w, op).sent ==> Numbered(Step(w, op).sent[u], numbers + NewNumbers(w, op, u), Step(w, op).sends)
  {
    match op
    case LoadUsersOp(usernames) => RegisterAllKeeps(w.sent, usernames, u);
    case SubscribeOp(v, sessionId) =>
    case UnsubscribeOp(v, sessionId) =>
    case SendOp(sender, _, _, _) =>
      if sender in w.store.notifications && u in w.sent {
        SendNumbered(w, op, u, numbers);
      }
    case FailoverOp =>
  }

  /** Each mail has the id that its number gives. */
  lemma {:induction false} MailboxNumbered(ops: seq<Op>, u: string)
    ensures u !in Run(ops).sent ==> SendNumbers(ops, u) == []
    ensures u in Run(ops).sent ==> Numbered(Run(ops).sent[u], SendNumbers(ops, u), Run(ops).sends)
  {
    if ops != [] {
      var front := ops[..|ops| - 1];
      MailboxNumbered(front, u);
      NextIdIs(front);
      StepNumbered(Run(front), ops[|ops| - 1], u, SendNumbers(front, u));
    }
  }

  lemma {:induction false} NumbersRise(ops: seq<Op>, u: string)
    requires FollowersDistinct(ops)
    ensures Rising(SendNumbers(ops, u))
  {
    if ops != [] {
      var front, op := ops[..|ops| - 1], ops[|ops| - 1];
      NumbersRise(front, u);
      MailboxNumbered(front, u);
      if op.SendOp? {
        OnceEach(op.followers, u);
      }
    }
  }

  lemma {:induction false} RegisterAllKeeps<T>(m: map<string, seq<T>>, usernames: seq<string>, u: string)
    ensures u in m ==> u in RegisterAll(m, usernames) && RegisterAll(m, usernames)[u] == m[u]
    ensures u !in m && u in RegisterAll(m, usernames) ==> RegisterAll(m, usernames)[u] == []
  {
    if usernames != [] {
      RegisterAllKeeps(m, usernames[..|usernames| - 1], u);
    }
  }

  /** How often the ids have come to the end of `int` by then. */
  function Lap(number: nat): nat {
    (number + TWO_31) / TWO_32
  }

  const TWO_31: nat := 0x8000_0000

  /** Two numbers are in the order of their ids as long as `int` does not run out between them. */
  lemma IdsFollowNumbers(m: nat, n: nat)
    requires Lap(m) == Lap(n)
    ensures ToInt32(m) < ToInt32(n) <==> m < n
  {
  }

  /** Without duplicate followers, the ids in a mailbox increase from one mail to a later one in the same lap. */
  lemma MailboxIncreases(ops: seq<Op>, u: string, i: nat, j: nat)
    requires FollowersDistinct(ops) && u in Run(ops).sent
    requires i < j < |Run(ops).sent[u]| && |SendNumbers(ops, u)| == |Run(ops).sent[u]|
    requires Lap(SendNumbers(ops, u)[i]) == Lap(SendNumbers(ops, u)[j])
    ensures Run(ops).sent[u][i].Mail? && Run(ops).sent[u][j].Mail?
    ensures Run(ops).sent[u][i].id < Run(ops).sent[u][j].id
  {
    MailboxNumbered(ops, u);
    NumbersRise(ops, u);
    IdsFollowNumbers(SendNumbers(ops, u)[i], SendNumbers(ops, u)[j]);
  }

  /** The numbers of the sends that went to one session. */
  function SessionNumbers(ops: seq<Op>, u: string, k: nat): seq<nat>
    requires (u, k) in Run(ops).starts && Run(ops).starts[(u, k)] <= |SendNumbers(ops, u)|
  {
    SendNumbers(ops, u)[Run(ops).starts[(u, k)]..]
  }

  lemma SessionIsNumbered(ops: seq<Op>, u: string, k: nat)
    requires IdsFree(ops) && u in Run(ops).store.queues && k in Run(ops).store.queues[u].subscribers
    ensures (u, k) in Run(ops).starts && Run(ops).starts[(u, k)] <= |SendNumbers(ops, u)|
    ensures
      var log := Run(ops).store.queues[u].subscribers[k];
      && |SessionNumbers(ops, u, k)| == |log|
      && forall i :: 0 <= i < |log| ==> log[i].id == ToInt32(SessionNumbers(ops, u, k)[i])
  {
    SessionStreams(ops, u, k);
    MailboxNumbered(ops, u);
    var w := Run(ops);
    var log := w.store.queues[u].subscribers[k];
    forall i | 0 <= i < |log| ensures log[i].id == ToInt32(SessionNumbers(ops, u, k)[i]) {
      assert Contents(log)[i] == w.sent[u][w.starts[(u, k)] + i];
    }
  }

  /** The ids in a session queue increase, when `int` does not run out between its first send and its last one. */
  lemma SessionIdsIncrease(ops: seq<Op>, u: string, k: nat)
    requires IdsFree(ops) && FollowersDistinct(ops)
    requires u in Run(ops).store.queues && k in Run(ops).store.queues[u].subscribers
    requires (u, k) in Run(ops).starts && Run(ops).starts[(u, k)] <= |SendNumbers(ops, u)|
    requires
      var numbers := SessionNumbers(ops, u, k);
      numbers != [] ==> Lap(numbers[0]) == Lap(numbers[|numbers| - 1])
    ensures
      var log := Run(ops).store.queues[u].subscribers[k];
      forall i, j :: 0 <= i < j < |log| ==> log[i].id < log[j].id
  {
    var numbers, log := SessionNumbers(ops, u, k), Run(ops).store.queues[u].subscribers[k];
    SessionIsNumbered(ops, u, k);
    NumbersRise(ops, u);
    forall i, j | 0 <= i < j < |log| ensures log[i].id < log[j].id {
      SameLap(numbers, i);
      SameLap(numbers, j);
      IdsFollowNumbers(numbers[i], numbers[j]);
    }
  }

  lemma SameLap(numbers: seq<nat>, i: nat)
    requires i < |numbers| && Rising(numbers) && Lap(numbers[0]) == Lap(numbers[|numbers| - 1])
    ensures Lap(numbers[i]) == Lap(numbers[0])
  {
    assert numbers[0] <= numbers[i] <= numbers[|numbers| - 1];
  }
}
