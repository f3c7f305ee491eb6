/** The loop that carries one session's notifications to its client, NotificationConsumer::run. */
module NotificationConsumers {
  import opened InputStream
  import opened StringUtils
  import opened NotificationStore
  import opened SessionQueues
  import opened Packets
  import opened Connections
  import opened ClientNotifications

  /** One round of the loop: what the manager has inserted since the last one, and the time. */
  datatype Round = Round(arriving: seq<Notification>, now: nat)

  function Arrived(rounds: seq<Round>): seq<Notification> {
    if rounds == [] then [] else Arrived(rounds[..|rounds| - 1]) + rounds[|rounds| - 1].arriving
  }

  /** A round sends one notification if one is there, and times out otherwise. */
  function SendTimes(waiting: nat, rounds: seq<Round>): (times: seq<nat>)
    ensures |times| <= waiting + |Arrived(rounds)|
  {
    if rounds == [] then []
    else
      var before := SendTimes(waiting, rounds[..|rounds| - 1]);
      if |before| < waiting + |Arrived(rounds)| then before + [rounds[|rounds| - 1].now] else before
  }

  /** What has come since round i began, before the first round or in it, and not found a round of its own. */
  function Backlog(waiting: nat, rounds: seq<Round>, i: nat): int
    requires i <= |rounds|
  {
    (if i == 0 then waiting else 0) + |Arrived(rounds[i..])| - (|rounds| - i)
  }

  /** What is left in the queue is the largest backlog: every round that finds a notification takes one. */
  ghost predicate Leaves(waiting: nat, rounds: seq<Round>, left: nat) {
    && (forall i :: 0 <= i <= |rounds| ==> Backlog(waiting, rounds, i) <= left)
    && exists i :: 0 <= i <= |rounds| && Backlog(waiting, rounds, i) == left
  }

  lemma {:induction false} ArrivedAppend(a: seq<Round>, b: seq<Round>)
    ensures Arrived(a + b) == Arrived(a) + Arrived(b)
  {
    if b == [] {
      assert a + b == a;
    } else {
      ArrivedAppend(a, b[..|b| - 1]);
      assert (a + b)[..|a + b| - 1] == a + b[..|b| - 1];
    }
  }

  lemma BacklogStep(waiting: nat, rounds: seq<Round>, last: Round, i: nat)
    requires i <= |rounds|
    ensures Backlog(waiting, rounds + [last], i) == Backlog(waiting, rounds, i) + |last.arriving| - 1
  {
    ArrivedAppend(rounds[i..], [last]);
    assert (rounds + [last])[i..] == rounds[i..] + [last];
    assert [last][..0] == [];
  }

  lemma LeavesStep(waiting: nat, rounds: seq<Round>, last: Round, left: nat)
    requires Leaves(waiting, rounds, left)
    ensures Leaves(waiting, rounds + [last], if left + |last.arriving| > 0 then left + |last.arriving| - 1 else 0)
  {
    var all := rounds + [last];
    var after := if left + |last.arriving| > 0 then left + |last.arriving| - 1 else 0;
    assert all[|all|..] == [];
    assert Backlog(waiting, all, |all|) == 0;
    forall i | 0 <= i <= |all| ensures Backlog(waiting, all, i) <= after {
      if i <= |rounds| {
        BacklogStep(waiting, rounds, last, i);
      }
    }
    var i :| 0 <= i <= |rounds| && Backlog(waiting, rounds, i) == left;
    BacklogStep(waiting, rounds, last, i);
  }

  /** So much is left when the notifications have gone out at these times. */
  lemma {:induction false} SendTimesLeave(waiting: nat, rounds: seq<Round>)
    ensures Leaves(waiting, rounds, waiting + |Arrived(rounds)| - |SendTimes(waiting, rounds)|)
  {
    if rounds == [] {
      assert Backlog(waiting, rounds, 0) == waiting;
    } else {
      var front := rounds[..|rounds| - 1];
      SendTimesLeave(waiting, front);
      LeavesStep(waiting, front, rounds[|rounds| - 1], waiting + |Arrived(front)| - |SendTimes(waiting, front)|);
      assert front + [rounds[|rounds| - 1]] == rounds;
    }
  }

  lemma QuietBefore(waiting: nat, rounds: seq<Round>, quiet: seq<Round>, i: nat)
    requires Arrived(quiet) == [] && i <= |rounds|
    ensures Backlog(waiting, rounds + quiet, i) == Backlog(waiting, rounds, i) - |quiet|
  {
    ArrivedAppend(rounds[i..], quiet);
    assert (rounds + quiet)[i..] == rounds[i..] + quiet;
  }

  lemma QuietWithin(waiting: nat, rounds: seq<Round>, quiet: seq<Round>, i: nat)
    requires Arrived(quiet) == [] && |rounds| < i <= |rounds + quiet|
    ensures Backlog(waiting, rounds + quiet, i) <= 0
  {
    var j := i - |rounds|;
    ArrivedAppend(quiet[..j], quiet[j..]);
    assert quiet[..j] + quiet[j..] == quiet;
    assert (rounds + quiet)[i..] == quiet[j..];
  }

  /** As many rounds without arrivals as notifications are waiting empty the queue. */
  lemma QuietRoundsEmpty(waiting: nat, rounds: seq<Round>, quiet: seq<Round>, before: nat, left: nat)
    requires Leaves(waiting, rounds, before) && Arrived(quiet) == [] && before <= |quiet|
    requires Leaves(waiting, rounds + quiet, left)
    ensures left == 0
  {
    var i :| 0 <= i <= |rounds + quiet| && Backlog(waiting, rounds + quiet, i) == left;
    if i <= |rounds| {
      QuietBefore(waiting, rounds, quiet, i);
      assert Backlog(waiting, rounds, i) <= before;
    } else {
      QuietWithin(waiting, rounds, quiet, i);
    }
  }

  /** When the last rounds bring nothing, and no more was left before them than they are, nothing is left. */
  ghost predicate EmptyWhenQuiet(waiting: nat, rounds: seq<Round>, left: nat) {
    forall k, before: nat ::
      0 <= k <= |rounds| && Leaves(waiting, rounds[..k], before) && Arrived(rounds[k..]) == [] && before <= |rounds| - k
      ==> left == 0
  }

  lemma QuietEndEmpties(waiting: nat, rounds: seq<Round>, left: nat)
    requires Leaves(waiting, rounds, left)
    ensures EmptyWhenQuiet(waiting, rounds, left)
  {
    forall k, before: nat | 0 <= k <= |rounds| && Leaves(waiting, rounds[..k], before)
                            && Arrived(rounds[k..]) == [] && before <= |rounds| - k
      ensures left == 0
    {
      assert rounds[..k] + rounds[k..] == rounds;
      QuietRoundsEmpty(waiting, rounds[..k], rounds[k..], before, left);
    }
  }

  function Nows(rounds: seq<Round>): seq<nat> {
    seq(|rounds|, i requires 0 <= i < |rounds| => rounds[i].now)
  }

  /** Without arrivals the notifications go out in the first rounds. */
  lemma {:induction false} QuietTimes(waiting: nat, rounds: seq<Round>)
    requires Arrived(rounds) == []
    ensures SendTimes(waiting, rounds) == Nows(rounds[..if waiting < |rounds| then waiting else |rounds|])
  {
    if rounds != [] {
      var front := rounds[..|rounds| - 1];
      QuietTimes(waiting, front);
      if waiting < |rounds| {
        assert front[..if waiting < |front| then waiting else |front|] == rounds[..waiting];
      } else {
        assert front[..|front|] == front && rounds[..|rounds|] == rounds;
      }
    }
  }

  /** The frames of the DATA packets for `items`, in the order in which they are sent. */
  ghost function Texts(items: seq<Notification>, first: int, times: seq<nat>): seq<string>
    requires |times| == |items|
  {
    Mapped(DataPackets(items, first, times), Frame)
  }

  /** What was sent when notifications have gone out at these times behind `before`. */
  ghost function Sent(before: string, items: seq<Notification>, first: int, times: seq<nat>): string
    requires |times| <= |items|
  {
    Grown(before, Texts(items[..|times|], first, times))
  }

  /** It is the frames of the DATA packets, which ClientNotifications.EndToEnd is about. */
  lemma SentIsFrames(before: string, items: seq<Notification>, first: int, times: seq<nat>)
    requires |times| <= |items|
    ensures Sent(before, items, first, times) == before + Frames(DataPackets(items[..|times|], first, times))
  {
    GrownIs(before, Texts(items[..|times|], first, times));
  }

  lemma TextsStep(items: seq<Notification>, first: int, times: seq<nat>, now: nat)
    requires |times| < |items|
    ensures Texts(items[..|times| + 1], first, times + [now]) ==
            Texts(items[..|times|], first, times) + [Frame(DataPacket(items[|times|], first + |times|, now))]
  {
  }

  lemma SentStep(before: string, items: seq<Notification>, first: int, times: seq<nat>, now: nat)
    requires |times| < |items|
    ensures Sent(before, items, first, times + [now]) ==
            Sent(before, items, first, times) + Frame(DataPacket(items[|times|], first + |times|, now))
  {
    TextsStep(items, first, times, now);
    GrownSnoc(before, Texts(items[..|times|], first, times), Frame(DataPacket(items[|times|], first + |times|, now)));
  }

  /** What arrives later does not change what was sent. */
  lemma SentSame(before: string, items: seq<Notification>, more: seq<Notification>, first: int, times: seq<nat>)
    requires |times| <= |items|
    ensures Sent(before, items + more, first, times) == Sent(before, items, first, times)
  {
    assert (items + more)[..|times|] == items[..|times|];
  }

  lemma LeftStep(items: seq<Notification>, i: nat)
    requires i < |items|
    ensures items[i..][0] == items[i] && items[i..][1..] == items[i + 1..]
  {
  }

  method ConsumeOne(queue: Queue<Notification>, connection: TCPConnection, now: nat)
    requires queue.Valid() && queue.items != []
    modifies queue, connection`m_sequenceNumber, connection.m_socket`outgoing
    ensures queue.Valid() && queue.log == old(queue.log)
    ensures queue.items == old(queue.items)[1..]
    ensures connection.m_sequenceNumber == old(connection.m_sequenceNumber) + 1
    ensures connection.m_socket.outgoing ==
            old(connection.m_socket.outgoing)
            + Frame(DataPacket(old(queue.items)[0], old(connection.m_sequenceNumber), now))
  {
    var notification := queue.Remove();
    var text := SerializeNotification(notification);
    var packet := new Packet.OfData(DATA, text, now);
    connection.Send(packet, now);
  }

  /** The same, with what was sent in the rounds before. */
  method ConsumeNext(queue: Queue<Notification>, connection: TCPConnection, now: nat,
                     ghost items: seq<Notification>, ghost first: int, ghost before: string, ghost times: seq<nat>)
    requires queue.Valid() && |times| < |items| && queue.items == items[|times|..]
    requires connection.m_sequenceNumber == first + |times|
    requires connection.m_socket.outgoing == Sent(before, items, first, times)
    modifies queue, connection`m_sequenceNumber, connection.m_socket`outgoing
    ensures queue.Valid() && queue.log == old(queue.log) && queue.items == items[|times| + 1..]
    ensures connection.m_sequenceNumber == first + |times| + 1
    ensures connection.m_socket.outgoing == Sent(before, items, first, times + [now])
  {
    LeftStep(items, |times|);
    SentStep(before, items, first, times, now);
    ConsumeOne(queue, connection, now);
  }

  /** Meanwhile the manager inserts notifications. */
  method Arrive(queue: Queue<Notification>, arriving: seq<Notification>)
    requires queue.Valid()
    modifies queue
    ensures queue.Valid() && queue.items == old(queue.items) + arriving && queue.log == old(queue.log) + arriving
  {
    for i := 0 to |arriving|
      invariant queue.Valid()
      invariant queue.items == old(queue.items) + arriving[..i] && queue.log == old(queue.log) + arriving[..i]
    {
      queue.Insert(arriving[i]);
      assert arriving[..i + 1] == arriving[..i] + [arriving[i]];
    }
    assert arriving[..|arriving|] == arriving;
  }

  /** What is left of `items` after some have been taken, when more arrive. */
  lemma LeftGrows(items: seq<Notification>, more: seq<Notification>, k: nat)
    requires k <= |items|
    ensures items[k..] + more == (items + more)[k..]
  {
  }

  /** What has been taken and sent so far, in the order of the queue. */
  ghost predicate Progress(queue: Queue<Notification>, connection: TCPConnection,
                           items: seq<Notification>, first: int, before: string, times: seq<nat>)
    reads queue, connection, connection.m_socket
  {
    && queue.Valid() && |times| <= |items| && queue.items == items[|times|..]
    && connection.m_sequenceNumber == first + |times|
    && connection.m_socket.outgoing == Sent(before, items, first, times)
  }

  function TimesAfter(times: seq<nat>, count: nat, now: nat): seq<nat> {
    if |times| < count then times + [now] else times
  }

  method ConsumeRound(queue: Queue<Notification>, connection: TCPConnection, round: Round,
                      ghost items: seq<Notification>, ghost first: int, ghost before: string, ghost times: seq<nat>)
    requires Progress(queue, connection, items, first, before, times)
    modifies queue, connection`m_sequenceNumber, connection.m_socket`outgoing
    ensures queue.log == old(queue.log) + round.arriving
    ensures Progress(queue, connection, items + round.arriving, first, before,
                     TimesAfter(times, |items + round.arriving|, round.now))
    ensures queue.items ==
            if old(queue.items) + round.arriving == [] then [] else (old(queue.items) + round.arriving)[1..]
  {
    Arrive(queue, round.arriving);
    LeftGrows(items, round.arriving, |times|);
    SentSame(before, items, round.arriving, first, times);
    if queue.items != [] {
      ConsumeNext(queue, connection, round.now, items + round.arriving, first, before, times);
    }
  }

  lemma NextRound(start: seq<Notification>, rounds: seq<Round>, i: nat)
    requires i < |rounds|
    ensures start + Arrived(rounds[..i + 1]) == start + Arrived(rounds[..i]) + rounds[i].arriving
    ensures SendTimes(|start|, rounds[..i + 1]) ==
            TimesAfter(SendTimes(|start|, rounds[..i]), |start + Arrived(rounds[..i + 1])|, rounds[i].now)
  {
    assert rounds[..i + 1][..i] == rounds[..i];
  }

  /**
   * The rounds up to the one in which the consumer is told to stop: one DATA packet for each notification,
   * in the order of the queue, whenever there is one; nothing is skipped or sent twice.
   */
  method Consume(queue: Queue<Notification>, connection: TCPConnection, rounds: seq<Round>)
    requires queue.Valid()
    modifies queue, connection`m_sequenceNumber, connection.m_socket`outgoing
    ensures queue.log == old(queue.log) + Arrived(rounds)
    ensures Progress(queue, connection, old(queue.items) + Arrived(rounds), old(connection.m_sequenceNumber),
                     old(connection.m_socket.outgoing), SendTimes(|old(queue.items)|, rounds))
    ensures Leaves(|old(queue.items)|, rounds, |queue.items|)
    ensures EmptyWhenQuiet(|old(queue.items)|, rounds, |queue.items|)
    ensures Arrived(rounds) == [] && |old(queue.items)| <= |rounds| ==>
      && queue.items == []
      && connection.m_socket.outgoing ==
           old(connection.m_socket.outgoing)
           + Frames(DataPackets(old(queue.items), old(connection.m_sequenceNumber), Nows(rounds[..|old(queue.items)|])))
  {
    ghost var start, log, first, before :=
      queue.items, queue.log, connection.m_sequenceNumber, connection.m_socket.outgoing;
    assert start + [] == start && start[0..] == start && log + [] == log;
    for i := 0 to |rounds|
      invariant queue.log == log + Arrived(rounds[..i])
      invariant Progress(queue, connection, start + Arrived(rounds[..i]), first, before, SendTimes(|start|, rounds[..i]))
    {
      NextRound(start, rounds, i);
      NextRound(log, rounds, i);
      ConsumeRound(queue, connection, rounds[i], start + Arrived(rounds[..i]), first, before,
                   SendTimes(|start|, rounds[..i]));
    }
    assert rounds[..|rounds|] == rounds;
    SendTimesLeave(|start|, rounds);
    QuietEndEmpties(|start|, rounds, |queue.items|);
    if Arrived(rounds) == [] && |start| <= |rounds| {
      QuietTimes(|start|, rounds);
      assert start + [] == start && start[..|start|] == start;
      SentIsFrames(before, start, first, SendTimes(|start|, rounds));
    }
  }
}
