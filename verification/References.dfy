/** Counting the references to a notification over the pending queues of all users. */
module References {
  import opened NotificationStore

  function Occurrences(q: Inbox, p: PendingNotification): nat {
    multiset(q.pending)[p]
  }

  ghost function RefsIn(queues: map<string, Inbox>, users: set<string>, p: PendingNotification): nat
    requires users <= queues.Keys
  {
    if users == {} then 0
    else
      var u :| u in users;
      Occurrences(queues[u], p) + RefsIn(queues, users - {u}, p)
  }

  /** The number of entries `p` over all pending queues. */
  ghost function Refs(queues: map<string, Inbox>, p: PendingNotification): nat {
    RefsIn(queues, queues.Keys, p)
  }

  lemma {:induction false} RefsPick(queues: map<string, Inbox>, users: set<string>, v: string, p: PendingNotification)
    requires users <= queues.Keys && v in users
    ensures RefsIn(queues, users, p) == Occurrences(queues[v], p) + RefsIn(queues, users - {v}, p)
  {
    var u :| u in users && RefsIn(queues, users, p) == Occurrences(queues[u], p) + RefsIn(queues, users - {u}, p);
    if u != v {
      RefsPick(queues, users - {u}, v, p);
      RefsPick(queues, users - {v}, u, p);
      assert users - {u} - {v} == users - {v} - {u};
    }
  }

  lemma {:induction false} RefsSame(a: map<string, Inbox>, b: map<string, Inbox>, users: set<string>, p: PendingNotification)
    requires users <= a.Keys && users <= b.Keys
    requires forall u :: u in users ==> Occurrences(a[u], p) == Occurrences(b[u], p)
    ensures RefsIn(a, users, p) == RefsIn(b, users, p)
  {
    if users != {} {
      var u :| u in users;
      RefsPick(a, users, u, p);
      RefsPick(b, users, u, p);
      RefsSame(a, b, users - {u}, p);
    }
  }

  /** Replacing one user's queue changes the total by the difference of that queue's entries. */
  lemma RefsUpdate(queues: map<string, Inbox>, u: string, q: Inbox, p: PendingNotification)
    ensures u in queues ==>
      Refs(queues[u := q], p) + Occurrences(queues[u], p) == Refs(queues, p) + Occurrences(q, p)
    ensures u !in queues ==> Refs(queues[u := q], p) == Refs(queues, p) + Occurrences(q, p)
  {
    var after := queues[u := q];
    RefsPick(after, after.Keys, u, p);
    if u in queues {
      RefsPick(queues, queues.Keys, u, p);
      assert after.Keys == queues.Keys;
      RefsSame(after, queues, queues.Keys - {u}, p);
    } else {
      assert after.Keys - {u} == queues.Keys;
      RefsSame(after, queues, queues.Keys, p);
    }
  }

  lemma RefsAtLeast(queues: map<string, Inbox>, u: string, p: PendingNotification)
    requires u in queues && p in queues[u].pending
    ensures Refs(queues, p) > 0
  {
    RefsPick(queues, queues.Keys, u, p);
  }

  lemma OccurrencesPop(q: Inbox, p: PendingNotification)
    requires q.pending != []
    ensures Occurrences(q, p) ==
      Occurrences(q.(pending := q.pending[1..]), p) + (if q.pending[0] == p then 1 else 0)
  {
    assert q.pending == [q.pending[0]] + q.pending[1..];
  }
}
