# Verification of the notification system

This Dafny project models the server of the notification system (a small Twitter clone with a primary
and backup replicas) and proves what its parts promise each other.

* **Notification store.** `NotificationManager` keeps one counted copy of each notification and, for each
  user, either live session queues or references to these copies. The classes in `NotificationManager.dfy`
  work in place, loop by loop, and are proved equal to the functions of `NotificationStore.dfy`. `Mailboxes.dfy`
  adds the history (what was sent to whom, what was handed to sessions) and the invariant; `MailboxProofs.dfy`,
  `DrainProofs.dfy` and `MailboxRuns.dfy` prove that in every run the store is one mailbox for each follower;
  `MailboxWrap.dfy` has the run in which ids wrap around. `MailboxHistory.dfy` says what store and sessions show
  in terms of the operations alone.
* **Text forms.** `StringUtils.dfy`, `Decimal.dfy` and `InputStream.dfy` model splitting, joining, decimal
  numbers and formatted input character by character. `NotificationCodec.dfy`, `StoreCodec.dfy`,
  `CodecLoops.dfy`, `ProfileCodec.dfy` and `ReplicaInfo.dfy` prove that reading undoes printing; `Formats.dfy`
  writes the texts out.
* **Replication.** `Replication.dfy` is the protocol between a leader and its backups over FIFO links, for any
  state with a text form. `Failover.dfy` puts notification store, text form, packets and protocol together, and
  `ProfileReplication.dfy` does so for the user table. `ReplicaHandler.dfy` has the loops that send the updates and
  the handler that passes each to its manager.
* **Election.** `Election.dfy` is a transition system of joining, crashing and electing replicas;
  `ElectionJoin.dfy`, `ElectionSafety.dfy` and `ElectionRuns.dfy` prove it safe and `ElectionNews.dfy` that the crash
  of a leader is noticed. `ElectionTraces.dfy` and `ElectionExact.dfy` construct continuations and prove when
  two leaders can come about; `ElectionReuse.dfy`, `ElectionInterrupted.dfy` and `ElectionLateJoin.dfy` have the
  concrete runs, and `ElectionProgress.dfy` follows a loser back out of an election.
* **Packets.** `Headers.dfy`, `Packet.dfy` and `TCPConnection.dfy` model framing over a stream that `recv` may cut
  anywhere; `NotificationConsumer.dfy` and `ClientNotification.dfy` follow a notification to the client.
* **Users.** `CsvText.dfy` and `CsvFiles.dfy` model the CSV file with its position and its rewrite in place;
  `Users.dfy`, `Profiles.dfy` and `ProfileManager.dfy` prove that the file agrees with the table in memory, and
  `ProfileFile.dfy` says what becomes of a file and a table that do not agree. `ProfileHistory.dfy` says what the
  table holds in terms of the file at the start and the operations alone.

`Sequences.dfy` and `Integers.dfy` hold what several of them use.

Clocks and random numbers are parameters. A read that fails in C++ leaves indeterminate values behind; here
it is `Failed`, and nothing is promised for what the original does after it.

Assumed of the environment:

* of the election: links are FIFO; connecting to a live replica succeeds; a connection ends only when its peer
  has crashed and everything it sent has been read; the wait for an answer returns only after one; replicas
  join at the original leader; its crash finds the backups in order: of any two live ones, one was given a lower
  id, and the other is connected to it or was told to connect. The last assumption is exact
  (`ElectionExact.CrashExactly`). It holds when nobody joins or is accepted after a departure
  (`ElectionRuns.JoinsFirstSuffices`), and between handshakes when no id was handed out that a live replica holds
  (`ElectionJoin.QuietIsOrdered`, `ElectionRuns.CalmRunInv`). `ElectionReuse` has two runs in which it fails.
* of the text forms: user names have no white space, NUL or comma; names in the CSV file are not empty and have
  no `;` or newline; replicated messages have no newline or NUL; numbers fit the types they are read into.
* of sending: a `send` writes the whole buffer.

What the model says about the code where one might expect otherwise:

* A notification id wraps around after 2^32 sends. The store stays in order exactly as long as no id is given out
  while it is in use (`MailboxRuns.IdsFreeExactly`), which holds for the first 2^32 sends
  (`MailboxRuns.FewSendsAreFree`) and can fail with the next one (`MailboxWrap.OneSendTooMany`).
* A follower without a queue is skipped without lowering the count, so the copy stays stored for ever
  (`MailboxRuns.MissingKeepsStored`); the counts are stated with these missing followers.
* An id that is handed out again after a departure can bring about two leaders (`ElectionReuse.TwoLeaders`,
  `ElectionExact.FreshIdExactly`).
* A newcomer that loses the leader before its answer keeps the id -1 and an empty list, and still elects itself
  (`ElectionReuse.TwoLeadersByCrash`).
* A replica whose handshake the first crash interrupts may not be told of the next leader, which may record a wrong
  id for it, ask it in an election and be answered "Won" (`ElectionInterrupted`). When these happen is exact:
  `ElectionNews.AlwaysToldExactly` and `ElectionRuns.RecordedIdsExactly`.
* With joins at a later leader there can be two leaders (`ElectionLateJoin.TwoLeadersByLateJoin`).
* A refused follower still leaves the follower list sorted, without a callback. So a backup may hold the
  followers in another order (`ProfileReplication.RefusedFollowExactly`); the file may as well.
* The first user of an empty table gets id 0, which a backup takes for invalid, and the first new user after a
  restart always shares its id with the user loaded last (`Profiles.NewUserSharesId`).
* A replica that takes over may have a table in memory and no file, or an older one. A follow without a file
  leaves an empty file, which the next start cannot read (`ProfileFile.ReadableExactly`) until a new user is stored
  (`ProfileFile.NewUserReadBack`).
* The project's README asks for user names that start with `@`; the server does not check that, and the model does
  not assume it.
* The comment at the size field speaks of any 32-bit unsigned size; `receive` converts it to an `int`, so a frame
  arrives exactly if it has at most 2^31 - 1 characters (`Connections.ReceivedExactly`).

To verify: `dafny verify dfyconfig.toml`

## Model

| member | source | states |
|---|---|---|
| `MailboxRuns.RunKeepsInv` | src/server/notification/NotificationManager.cpp:14-126 | in every run of loadUsers, subscribe, unsubscribe, send and failovers, of any length, in which no send gives out an id still in use while somebody waits: the counts, the references and the mailboxes agree, ids of a sender are unique, a user with a session has nothing pending, and every session queue is a run of the mailbox |
| `MailboxRuns.IdsFreeExactly` | src/server/notification/NotificationManager.cpp:8-39 | the invariant holds at every point of a run if and only if no send of the run gives out an id still in use while somebody waits |
| `MailboxRuns.FewSendsAreFree` | src/server/notification/NotificationManager.cpp:8-12 | no run with at most 2^32 sends gives out such an id |
| `MailboxWrap.OneSendTooMany` | src/server/notification/NotificationManager.cpp:8-12 | a run of 2^32 + 1 sends from the start of the server after which the invariant is lost: the follower is shown the first notification twice and the second one never |
| `MailboxRuns.MissingKeepsStored` | src/server/notification/NotificationManager.cpp:20-35 | a notification for which a follower had no queue stays stored whatever happens afterwards |
| `MailboxRuns.MailboxesRefined` | src/server/notification/NotificationManager.cpp:14-106 | for every registered user, what was handed to sessions followed by what the pending references lead to is exactly what was sent to the user, in order, with id, sender, timestamp and message unaltered |
| `MailboxRuns.CountsConserved` | src/server/notification/NotificationManager.cpp:20-35 | a notification is stored exactly while somebody waits for it, and its count is the number of references to it over all pending queues plus the followers that had no queue when it was sent; every reference leads to one notification |
| `MailboxRuns.SessionStreams` | src/server/notification/NotificationManager.cpp:74-92 | a user with a session has an empty pending queue, and the session got the user's mailbox from the point where it took over, without a gap |
| `MailboxRuns.SessionIdsIncrease` | src/server/notification/NotificationQueue.cpp:8-20 | the ids put into one session queue are strictly increasing, for duplicate-free follower lists, unless `int` runs out between the first send to that session and the last one |
| `MailboxRuns.MailboxIncreases` | src/server/notification/NotificationManager.cpp:8-12 | in a run of any length, with duplicate-free follower lists, the ids of two mails of one user increase unless `int` ran out between their sends |
| `MailboxRuns.MailboxNumbered` | src/server/notification/NotificationManager.cpp:8-12 | every mail of a user has the id that the number of its send gives, modulo 2^32 as a signed number |
| `MailboxRuns.SubscribeDelivers` | src/server/notification/NotificationManager.cpp:67-96 | a new session gets exactly what the pending references stood for, and nothing stays pending |
| `MailboxRuns.FailoverKeepsInv` | src/server/notification/NotificationManager.cpp:128-132 | losing all sessions at once, as a backup that takes over does, keeps the whole invariant |
| `MailboxRuns.FailoverServes` | src/server/notification/NotificationManager.cpp:67-96 | after a failover nobody is subscribed, and a user who then subscribes gets exactly what had been sent and not delivered, each once and in order |
| `MailboxHistory.SessionsAre` | src/server/notification/NotificationManager.cpp:67-126 | in every run at all, a user has an inbox exactly if it was loaded or has subscribed, and its sessions are those that subscribed for it and did not unsubscribe since the last failover |
| `MailboxHistory.StoreShowsHistory` | src/server/notification/NotificationManager.cpp:14-126 | told from the operations alone, in every run in which ids are free: what the pending references lead to is what the user was sent since it is known (id, sender, timestamp, message, a copy for each time in the list), without what was handed over while a session was live |
| `MailboxHistory.SessionShowsHistory` | src/server/notification/NotificationManager.cpp:67-92 | and a live session has got exactly what the user was sent from the point where the session took over |
| `MailboxHistory.SubscribeExactly` | src/server/notification/NotificationManager.cpp:67-96 | a subscribe attaches the session of a known user or of a new one, keeps what every other session has got, changes nobody else, and does nothing for a key in use |
| `MailboxHistory.SubscribeKeepsOthers` | src/server/notification/NotificationQueue.cpp:45-50 | in a run, a subscribe changes no other inbox and no other session of the user |
| `MailboxHistory.UnsubscribeExactly` | src/server/notification/NotificationQueue.cpp:52-56 | an unsubscribe takes exactly the session with that id modulo 2^32 away; other sessions, references, notifications and users stay |
| `MailboxHistory.UnknownSenderChangesNothing` | src/server/notification/NotificationManager.cpp:108-115 | a send by an unknown sender changes nothing |
| `MailboxProofs.SendKeepsInvExactly` | src/server/notification/NotificationManager.cpp:8-39 | send keeps the invariant if and only if the sender is unknown, or the next id is not in use for that sender, or nobody has to wait for the notification |
| `MailboxProofs.FreshWhileNotWrapped` | src/server/notification/NotificationManager.cpp:8-12 | the next id is not in use while fewer than 2^32 sends have been made |
| `MailboxProofs.InsertAllAt` | src/server/notification/NotificationManager.cpp:23-30 | the follower loop gives every session of an online follower one copy for each occurrence in the list, an offline follower as many references, and leaves everybody else alone |
| `MailboxProofs.InsertAllRefs` | src/server/notification/NotificationQueue.cpp:8-20 | the loop adds exactly as many references to the new notification as there are registered offline followers, and none to any other |
| `MailboxProofs.SendLookup` | src/server/notification/NotificationManager.cpp:20-35 | after a send the new reference leads to the new notification with its remaining count, or nowhere when everybody was reached; what any other reference leads to is unchanged |
| `DrainProofs.DrainKeeps` | src/server/notification/NotificationManager.cpp:77-85 | the drain loop keeps counts, references, mailboxes and streams together while handing over exactly what the references stood for |
| `DrainProofs.DrainEffect` | src/server/notification/NotificationManager.cpp:77-85 | after the drain loop nothing is pending for that user, the sessions are the same ones, and no other user's queue has changed |
| `DrainProofs.CountDownLookup` | src/server/notification/NotificationManager.cpp:41-65 | findNotification changes the count of the notification it finds, or removes it at the last count, and changes what no other reference leads to |
| `DrainProofs.SubscribeKeepsInv` | src/server/notification/NotificationManager.cpp:67-96 | subscribe keeps the invariant for a known user and for a new one |
| `References.RefsUpdate` | src/server/notification/NotificationQueue.cpp:16-17 | replacing one user's queue changes the total number of references by the difference of that queue's entries |
| `NotificationManagers.NotificationManager.Send` | src/server/notification/NotificationManager.cpp:14-39 | the in-place send does to the object's view exactly what the specification says, and calls the callback once, with the new state, when the sender is known; an unknown sender leaves the view as it was, without a callback |
| `NotificationManagers.NotificationManager.InsertForAll` | src/server/notification/NotificationManager.cpp:22-30 | the loop over the followers, with the stored copy counted down once for every follower that was reached |
| `NotificationManagers.NotificationManager.CreateNotification` | src/server/notification/NotificationManager.cpp:108-115 | an unknown sender changes nothing; otherwise the copy with the next id is stored last |
| `NotificationManagers.NotificationManager.FindNotification` | src/server/notification/NotificationManager.cpp:41-65 | finds exactly the references that resolve, returns what they lead to, and counts it down in place |
| `NotificationManagers.NotificationManager.HandOverAll` | src/server/notification/NotificationManager.cpp:77-85 | the drain loop over the objects equals the specified drain |
| `NotificationManagers.NotificationManager.Subscribe` | src/server/notification/NotificationManager.cpp:67-96 | subscribing a session queue equals the specification, with one callback after it |
| `NotificationManagers.NotificationManager.Unsubscribe` | src/server/notification/NotificationManager.cpp:98-105 | only the named session goes; the callback is called even for an unknown user |
| `NotificationManagers.NotificationManager.LoadUsers` | src/server/notification/NotificationManager.cpp:117-126 | every user gets an empty list and an empty queue unless there was one |
| `NotificationManagers.NotificationManager.Update` | src/server/notification/NotificationManager.cpp:128-132 | the object shows the state of the other one, in queue objects of its own |
| `NotificationManagers.NotificationManager.Serialize` | src/server/notification/NotificationManager.cpp:134-157 | the loops print the specified text for some enumeration of each of the two unordered maps |
| `NotificationManagers.NotificationManager.Deserialize` | src/server/notification/NotificationManager.cpp:159-226 | the loops build exactly the state that the parse function describes, and fail exactly when it does |
| `NotificationManagers.NotificationQueue.Insert` | src/server/notification/NotificationQueue.cpp:8-20 | a copy for every session when there is one, a reference otherwise |
| `NotificationManagers.NotificationQueue.InsertToSubscribers` | src/server/notification/NotificationQueue.cpp:34-43 | every session queue gets the notification once |
| `NotificationManagers.NotificationQueue.RemovePending` | src/server/notification/NotificationQueue.cpp:26-32 | takes the oldest reference, and yields a reference to nobody when there is none |
| `NotificationManagers.NotificationQueue.Subscribe` | src/server/notification/NotificationQueue.cpp:45-50 | the session is stored under its id modulo 2^32, and a key in use keeps its queue |
| `NotificationManagers.NotificationQueue.Unsubscribe` | src/server/notification/NotificationQueue.cpp:52-56 | only the session under that key goes |
| `SessionQueues.Queue.Insert` | src/lib/Queue.hpp:18-25 | everything ever inserted is what was taken out followed by what is inside |
| `SessionQueues.Queue.Remove` | src/lib/Queue.hpp:27-39 | takes the oldest element |
| `StoreCodec.StoreBack` | src/server/notification/NotificationManager.cpp:134-226 | reading what was printed gives back the next id, all notification lists and all pending queues, for every store the format can carry and every enumeration order; messages may contain blanks, commas and ampersands |
| `StoreCodec.SplitAtSeparator` | src/server/notification/NotificationManager.cpp:150-169 | the first place where the separator matches is where it was put, because no line is just an ampersand |
| `StoreCodec.LinesBack` | src/server/notification/NotificationManager.cpp:174-222 | lines that are read back one by one are read back as the whole map, in any order |
| `StoreCodec.StoreTextClean` | src/server/notification/NotificationManager.cpp:134-157 | the text has no NUL, so it passes through a C string whole |
| `NotificationCodec.NotificationBack` | src/server/notification/Notification.cpp:24-46 | deserializeAll undoes serializeAll for every notification with a token as sender and a message without newline and NUL |
| `NotificationCodec.PendingBack` | src/server/notification/PendingNotification.cpp:11-19 | deserialize undoes serialize for a reference |
| `NotificationCodec.QueueBack` | src/server/notification/NotificationQueue.cpp:58-87 | deserialize undoes serialize for a pending queue, the empty one too |
| `NotificationCodec.NotificationsLineBack` | src/server/notification/NotificationManager.cpp:174-199 | one user's line of length-prefixed notifications is read back as that user's list |
| `NotificationCodec.SizedBack` | src/server/notification/NotificationManager.cpp:185-191 | the length, ignore(1) and read(length) give the field back, whatever characters it has |
| `CodecLoops.SerializeQueue` | src/server/notification/NotificationQueue.cpp:58-66 | the loop prints the specified text |
| `CodecLoops.DeserializeQueue` | src/server/notification/NotificationQueue.cpp:68-87 | the loop reads what the parse function describes |
| `InputStream.ReadIntBack` | src/server/notification/NotificationQueue.cpp:69-71 | a printed int is read back by >> and leaves the rest of the stream |
| `InputStream.ReadTokenBack` | src/server/notification/PendingNotification.cpp:16-17 | a name without white space is read back by >> |
| `Decimal.ValueOfPadded` | src/lib/packet/Packet.cpp:68-71 | the number printed with leading zeros has the value that was printed |
| `Replication.BackupsFollow` | src/server/replication/ReplicaManager.cpp:313-330 | a backup that has read an update holds a state that the leader sent, and the leader's own state whenever its link is drained |
| `Replication.BackupsMoveForward` | src/server/replication/rm/ReplicaHandler.cpp:73-84 | the history only grows, and no backup ever goes back in it |
| `Replication.UpdatesReadable` | src/server/replication/rm/ReplicaHandler.cpp:79-84 | an update under way can always be read |
| `Replication.RunKeeps` | src/server/replication/ReplicaManager.cpp:150-165 | every link carries a strictly newer part of the history, in order, in every run of changes, joins and reads |
| `Replication.FirstUpdateSettles` | src/server/replication/ReplicaManager.cpp:104-116 | when a backup takes over, its first update restores the link invariant for every other backup, whatever part of the old leader's history each of them had read |
| `Replication.SurvivorsCatchUp` | src/server/replication/rm/ReplicaHandler.cpp:73-84 | so from then on, in every run, a surviving backup whose link is drained holds the new leader's state |
| `Failover.BackupHoldsPrefix` | src/server/replication/ReplicaManager.cpp:313-330 | with the real text form and the real store, and over any number of takeovers: what a backup holds is what some leader replicated after the operations recorded for it; if that was the present leader, these are a part of its operations from the start on, and all of them count once the link is drained |
| `Failover.DrainedBackupsAgree` | src/server/replication/ReplicaManager.cpp:313-330 | from the first operation on that a leader replicates, the first one or one that took over, every drained backup has its state as long as it leads |
| `Failover.BackupServes` | src/server/replication/rm/ReplicaHandler.cpp:79-84 | a user who subscribes at a backup that takes over, be it from the first leader or a later one, gets exactly what had been sent within the operations behind its state and not delivered, each once and in order |
| `Failover.UpdateArrives` | src/server/replication/ReplicaManager.cpp:321-326 | the packet is received with type UPDATE_NOTIFICATION, and its text is read as the replicated store |
| `ProfileReplication.ProfileArrives` | src/server/replication/ReplicaManager.cpp:294-311 | the packet is received with type UPDATE_PROFILE, and its text is read as the users with a positive id |
| `ReplicaHandlers.NotificationsReach` | src/server/replication/rm/ReplicaHandler.cpp:73-84 | a backup whose handler reads the leader's notification packet from the stream has the leader's notification store and its own user table as before |
| `ReplicaHandlers.ProfilesReach` | src/server/replication/rm/ReplicaHandler.cpp:73-84 | one that reads the profile packet has the leader's valid users and its own notification store as before |
| `ReplicaHandlers.ReplicaHandler.Handle` | src/server/replication/rm/ReplicaHandler.cpp:73-84 | the dispatch on the type reads the text into a new manager and updates the right one of the two in place; other types reach neither |
| `ReplicaHandlers.ReplicaManager.SendNotificationUpdate` | src/server/replication/ReplicaManager.cpp:313-330 | every other replica gets one packet, of the type and with a text that the lemmas above are about, stamped with the next number of its connection; a replica with its own address gets none |
| `ReplicaHandlers.ReplicaManager.SendProfileUpdate` | src/server/replication/ReplicaManager.cpp:294-311 | the same for the user table |
| `ProfileReplication.BackupAgrees` | src/server/replication/ReplicaManager.cpp:294-311 | once its link is drained, a backup has the leader's users with a positive id, with the same sets of followers |
| `ProfileReplication.BackupEquals` | src/server/replication/ReplicaManager.cpp:294-311 | and with the followers in the leader's order, in runs in which no refused follow sorts the list of a replicated user |
| `ProfileReplication.RefusedFollowExactly` | src/server/profile/User.cpp:33-50 | a refused follow leaves what is replicated as it is if and only if the user has no positive id, or is the follower, or the list is sorted already |
| `ProfileReplication.RefusedFollowSorts` | src/server/profile/User.cpp:33-50 | a table on which a refused follow changes the order of what is replicated |
| `ProfileReplication.BackupHoldsPast` | src/server/replication/rm/ReplicaHandler.cpp:73-77 | what a backup holds is exactly what the leader replicated of its users after some of its events |
| `ElectionRuns.AtMostOneLeader` | src/server/replication/ReplicaManager.cpp:88-114 | in every run with joins at the original leader whose crash finds the backups in order (of any two live ones, one was given a lower id and the other is connected to it or was told to connect), there is at most one live leader; handshakes may be open, ids may be handed out twice, backups may crash at any time |
| `ElectionRuns.OneLeaderWhenJoinsComeFirst` | src/server/replication/ReplicaManager.cpp:99-112 | the same without a condition on the leader's crash, for runs in which no replica joins or is accepted after a departure |
| `ElectionRuns.RunInv` | src/server/replication/rm/ReplicaHandler.cpp:36-71 | the invariant behind it: recorded ids are right, of two live replicas the later one sees the earlier one, and the part of the vector an election has passed holds no lower id; through the rest of the handshakes too |
| `ElectionRuns.NoElectionBefore` | src/server/replication/rm/ReplicaHandler.cpp:89-91 | no election runs, and no election message was ever sent, while the original leader is alive |
| `ElectionRuns.RecordedIds` | src/server/replication/ReplicaManager.cpp:282-292 | the id that a process records for a peer is that peer's own id, unless the process is a later leader |
| `ElectionRuns.RecordedIdsExactly` | src/server/replication/ReplicaManager.cpp:282-292 | all recorded ids are right throughout an orderly run if and only if every later leader that accepts a replica hands out the id that this replica has |
| `ElectionSafety.AcceptRecordsExactly` | src/server/replication/ReplicaManager.cpp:147-165 | the records of a later leader stay right on an accept if and only if the size of its vector is the id in the hello |
| `ElectionRuns.DisciplinedIsTaken` | src/server/replication/ReplicaManager.cpp:282-292 | they do so when ids are fresh and the first crash comes between handshakes |
| `ElectionInterrupted.WrongRecorded` | src/server/replication/ReplicaManager.cpp:282-292 | an orderly run in which a later leader records a wrong id |
| `ElectionRuns.ElectionAnswers` | src/server/replication/rm/ReplicaHandler.cpp:43-55 | ELECTION goes only to a process with a lower id, and "Won" is never sent, as long as later leaders hand out the ids that replicas have; for processes that do not lead, in any orderly run |
| `ElectionInterrupted.AsksHigher` | src/server/replication/ReplicaManager.cpp:180-200 | an orderly run in which a later leader sends ELECTION to a replica with a higher id |
| `ElectionInterrupted.WonIsSent` | src/server/replication/rm/ReplicaHandler.cpp:43-55 | the same run goes on to an answer "Won" |
| `ElectionRuns.LeaderIsLeast` | src/server/replication/ReplicaManager.cpp:180-200 | when a replica leads, the original leader and every replica that was given a lower id have crashed |
| `ElectionRuns.LeadersIncrease` | src/server/replication/ReplicaManager.cpp:105-112 | successive leaders have strictly increasing ids |
| `ElectionRuns.JoinPhaseFacts` | src/server/replication/ReplicaManager.cpp:118-178 | while nobody has left: entry i of the leader's vector has id i, ids are pairwise distinct, any two members are connected or about to be, and every backup's vector contains all earlier backups |
| `ElectionRuns.AcceptKeepsIdsExactly` | src/server/replication/ReplicaManager.cpp:287-291 | accepting a newcomer keeps the ids of live replicas distinct if and only if no live replica holds the size of the leader's vector as its id |
| `ElectionExact.FreshIdExactly` | src/server/replication/ReplicaManager.cpp:287-291 | with the leader's crash between handshakes only: when the leader accepts a live newcomer, no continuation has two live leaders if and only if no live replica holds the id that is handed out |
| `ElectionExact.CrashBeforeAnswerSplits` | src/server/replication/ReplicaManager.cpp:253-268 | when a live newcomer waits for the leader's answer beside another live backup, the leader's crash can make both of them leader |
| `ElectionRuns.JoinsFirstSuffices` | src/server/replication/ReplicaManager.cpp:282-292 | when nobody joins or is accepted after a departure, the backups are in order at the leader's crash |
| `ElectionJoin.QuietIsOrdered` | src/server/replication/ReplicaManager.cpp:118-178 | between handshakes, replicas that were given fresh ids all see each other, so they are in order |
| `ElectionJoin.MeetingStepKeeps` | src/server/replication/ReplicaManager.cpp:118-178 | while the original leader lives and hands out fresh ids, the ids of live replicas stay distinct, and any two of them are connected or about to be |
| `ElectionExact.CrashExactly` | src/server/replication/ReplicaManager.cpp:88-114 | in every reachable state with the original leader alive: its crash leaves at most one leader in every continuation if and only if the backups are in order |
| `ElectionNews.RunAnnounced` | src/server/replication/ReplicaManager.cpp:202-209 | while no step misses somebody: every live process that has joined knows its connection to each leader as such, or has the announcement still to read |
| `ElectionNews.AnnouncedExactly` | src/server/replication/ReplicaManager.cpp:202-209 | a winner misses nobody if and only if its vector holds every live process that has joined, but for those who know already |
| `ElectionNews.HandshakeAnnouncedExactly` | src/server/replication/ReplicaManager.cpp:118-144 | a replica that ends its handshake, with the answer or without, misses no leader if and only if it has joined at the leader or knows it to lead, for every leader |
| `ElectionNews.AlwaysToldExactly` | src/server/replication/ReplicaManager.cpp:202-209 | in any run at all, everybody knows of every leader, or has the announcement to read, throughout if and only if every win and every end of a handshake meets these conditions |
| `ElectionNews.DisciplinedIsTold` | src/server/replication/ReplicaManager.cpp:202-209 | they are met with fresh ids and the first crash between handshakes |
| `ElectionInterrupted.NotTold` | src/server/replication/ReplicaManager.cpp:118-144 | an orderly run in which the replica of an interrupted handshake is not told who leads |
| `ElectionNews.LeaderCrashNoticed` | src/server/replication/rm/ReplicaHandler.cpp:58-63 | so the end of the connection to a crashed leader sets the election flag of every live replica |
| `ElectionReuse.TwoLeaders` | src/server/replication/ReplicaManager.cpp:287-287 | a run with joins at the original leader only, one of them after a departure, that ends with two live leaders |
| `ElectionReuse.TwoLeadersByCrash` | src/server/replication/rm/ReplicaHandler.cpp:89-91 | a run in which two replicas connect, the leader crashes before it answers, and both of them become leader |
| `ElectionLateJoin.LowerIdSplits` | src/server/replication/ReplicaManager.cpp:180-200 | a later leader that has not noticed the first crash yet, and has recorded a lower id for a live replica that knows of nobody before it, can be joined by a second leader |
| `ElectionLateJoin.TwoLeadersByLateJoin` | src/server/replication/ReplicaManager.cpp:287-291 | a run with a join at a later leader, which hands out an id below its own, that ends with two live leaders |
| `ElectionSafety.WinnerIsLeast` | src/server/replication/ReplicaManager.cpp:184-199 | a replica that has not lost has the least id of all live replicas |
| `ElectionSafety.StepKeeps` | src/server/replication/ReplicaManager.cpp:88-114 | every step of an election, and of the handshakes that the leader's crash left open, keeps the invariant |
| `ElectionSafety.OpenFilters` | src/server/replication/ReplicaManager.cpp:217-224 | removing closed connections drops exactly the closed ones and keeps the others in order, each as often as it was there |
| `ElectionProgress.AnswerWakes` | src/server/replication/rm/ReplicaHandler.cpp:65-71 | an answer that is read by a process that waits for one lets it go on: to its decision after "Lost", to the next entry of its vector after "Won" |
| `ElectionProgress.LoserReturns` | src/server/replication/ReplicaManager.cpp:101-114 | from any state in which "Lost" is under way to a waiting process, the system can get to the same state with the answer read and that process back at accepting, with both flags clear |
| `ElectionProgress.AskingHandsOver` | src/server/replication/ReplicaManager.cpp:180-200 | the whole exchange: a process that asks a live one with no higher id can return to accepting, and the one that was asked has its election flag set; nothing else changes |
| `ElectionJoin.JoinStepKeeps` | src/server/replication/ReplicaManager.cpp:118-178 | every step of joining keeps the join invariant while the original leader lives, whatever ids it hands out and whenever backups crash |
| `ElectionJoin.OriginCrash` | src/server/replication/rm/ReplicaHandler.cpp:89-91 | when the original leader crashes and the backups are in order, the election invariant holds from there, with open handshakes too |
| `ReplicaInfos.ParseBack` | src/server/replication/ReplicaInfo.hpp:22-38 | deserialize undoes serialize, also for negative ids and an empty address |
| `ReplicaInfos.ListBack` | src/server/replication/ReplicaManager.cpp:226-246 | a non-empty list of replicas is read back from its lines |
| `ReplicaInfos.StateBack` | src/server/replication/ReplicaManager.cpp:253-292 | receiveState takes over exactly the id and the list that sendState sent, for every list and the empty one too |
| `ReplicaInfos.StateArrives` | src/server/replication/ReplicaManager.cpp:253-292 | a REPLICAS packet brings the id and the list through packet, framing and parser |
| `ReplicaInfos.SerializeReplicas` | src/server/replication/ReplicaManager.cpp:226-237 | the loop prints one line for each replica |
| `ReplicaInfos.DeserializeReplicas` | src/server/replication/ReplicaManager.cpp:239-246 | the loop reads one replica from each line |
| `Connections.FramesBack` | src/lib/socket/TCPConnection.cpp:91-107 | any sequence of packets is received as it was sent: type, timestamp, sequence number, length and payload, and nothing behind it is consumed |
| `Connections.ReceivingFrame` | src/lib/socket/TCPConnection.cpp:91-107 | one frame is received as the packet that was sent |
| `Connections.ReceivedExactly` | src/lib/socket/TCPConnection.cpp:91-107 | a frame is received as the packet that was sent if and only if its size fits an int |
| `Connections.CutFrame` | src/lib/socket/TCPConnection.cpp:78-81 | a stream that ends inside a frame yields no packet |
| `Connections.TCPConnection.ReceiveAll` | src/lib/socket/TCPConnection.cpp:73-89 | exactly the requested characters are taken, however recv cuts the stream, or none of a stream that is too short |
| `Connections.TCPConnection.Receive` | src/lib/socket/TCPConnection.cpp:91-107 | receive does what the specification on the remaining characters says, for every way recv cuts them |
| `Connections.TCPConnection.Send` | src/lib/socket/TCPConnection.cpp:61-67 | the packet is stamped with the next sequence number and its frame goes behind everything sent before |
| `Integers.ToInt32` | src/lib/socket/TCPConnection.cpp:96-96 | the conversion to an int is congruent modulo 2^32 |
| `Packets.ParsedBack` | src/lib/packet/Packet.cpp:59-99 | deserialize undoes serialize for every payload without NUL, blank lines included |
| `Packets.TypeBack` | src/lib/packet/Packet.cpp:101-184 | the two tables of packet types are inverse to each other |
| `Packets.HeaderShape` | src/lib/packet/Packet.cpp:61-65 | a header has no blank line, so the first one in the text ends it |
| `Packets.FrameShape` | src/lib/packet/Packet.cpp:67-71 | the size field always has ten digits and the value of the size modulo 2^32, so the text begins behind the tenth character |
| `Formats.FrameLayout` | src/lib/packet/Packet.cpp:59-74 | the frame in one line: every character that is always the same is written out |
| `Formats.ShownLayout` | src/server/notification/Notification.cpp:13-22 | the same for the text that a client is sent |
| `Formats.StoreLayout` | src/server/notification/NotificationManager.cpp:134-157 | the same for the store of two users, with its separator |
| `Formats.NotificationsLayout` | src/server/notification/NotificationManager.cpp:136-148 | the same for the line of a user with two notifications |
| `Formats.QueueLayout` | src/server/notification/NotificationQueue.cpp:58-66 | the same for the line of a user with two pending references |
| `Formats.UsersLayout` | src/server/profile/ProfileManager.cpp:115-121 | the same for a table of two users |
| `Formats.UserLayout` | src/server/profile/User.cpp:83-98 | the same for a user with two followers and two sessions |
| `Formats.FileLayout` | src/lib/csv/CSVWriter.cpp:71-76 | the same for a file of two users |
| `Packets.Packet.Serialize` | src/lib/packet/Packet.cpp:59-74 | appending the fields gives the specified frame |
| `Packets.Packet.Deserialize` | src/lib/packet/Packet.cpp:76-99 | a text is parsed as specified, and one that cannot be parsed yields the NO_TYPE packet |
| `Headers.HeaderEnds` | src/lib/packet/Packet.cpp:85-85 | splitting at the first blank line gives back header and payload, even if the payload begins with a newline |
| `ClientNotifications.EndToEnd` | src/server/notification/NotificationConsumer.cpp:22-47 | all notifications sent over one connection arrive at the client as DATA packets, in order, with id, sender, timestamp and message unaltered, though packet and notification use the same separator |
| `ClientNotifications.ShownBack` | src/client/Notification.cpp:27-45 | the client reads what the server wrote, for a sender of 1 to 44 characters without white space and any message without NUL |
| `ClientNotifications.SerializeNotification` | src/server/notification/Notification.cpp:13-22 | appending the fields gives the specified text |
| `NotificationConsumers.Consume` | src/server/notification/NotificationConsumer.cpp:22-47 | over any number of rounds, with notifications that enter the queue in between and waits that time out: the stream grows by one DATA packet for each notification taken out, in the order of the queue, with consecutive sequence numbers; what is left is the largest backlog; it is nothing when the last k rounds bring nothing and at most k were left before them; without arrivals and with a round for each one waiting, the frames of all of them are sent, with the times of the first rounds |
| `NotificationConsumers.SentIsFrames` | src/server/notification/NotificationConsumer.cpp:35-36 | what the loop has put on the stream is the frames of these packets |
| `NotificationConsumers.SendTimesLeave` | src/server/notification/NotificationConsumer.cpp:22-47 | how many notifications are left after any rounds: as many as the largest backlog, over all rounds to begin with, of what has arrived since then less one for each round |
| `NotificationConsumers.QuietRoundsEmpty` | src/server/notification/NotificationConsumer.cpp:24-36 | when at most k notifications are left, k rounds without arrivals empty the queue |
| `NotificationConsumers.QuietTimes` | src/server/notification/NotificationConsumer.cpp:24-36 | without arrivals the times of sending are those of the first rounds, one for each notification waiting |
| `StringUtils.JoinUndoesSplit` | src/lib/utils/string.cpp:38-51 | joining the parts of split gives the text back, for every text and every non-empty delimiter |
| `StringUtils.SplitUndoesJoin` | src/lib/utils/string.cpp:72-97 | splitting undoes joining for a non-empty list of parts free of a one-character delimiter |
| `StringUtils.SplitFirstAt` | src/lib/utils/string.cpp:27-36 | splitFirst cuts at the first match |
| `StringUtils.Split` | src/lib/utils/string.cpp:38-51 | the loop yields the specified parts |
| `StringUtils.JoinStringVector` | src/lib/utils/string.cpp:72-81 | the loop yields the specified text |
| `StringUtils.JoinStringList` | src/lib/utils/string.cpp:83-97 | the loop with its flag yields the same text |
| `CsvText.RewriteComplete` | src/lib/csv/CSVWriter.cpp:58-107 | rewriting from offset 0 without truncation leaves no stale character and changes only the matching lines, for every file whose lines are not empty and do not end with the delimiter |
| `CsvText.UnchangedExactly` | src/lib/csv/CSVWriter.cpp:67-96 | printing the rows of a file without empty lines gives the file back if and only if no line ends with the delimiter |
| `CsvText.StaleCharacters` | src/lib/csv/CSVWriter.cpp:88-93 | when a line ends with the delimiter, a rewrite that matches nothing leaves a stale character |
| `CsvText.RowTextOfColumns` | src/lib/csv/CSVWriter.cpp:71-76 | printing the columns of a line gives the line back, but for one delimiter at its end |
| `CsvText.FileRowsOfText` | src/lib/csv/CSVReader.cpp:87-107 | reading a printed table gives the table back |
| `CsvFiles.FStream.ReadRows` | src/lib/csv/CSVReader.cpp:87-107 | the getline loops yield the columns of every line |
| `CsvFiles.ParseColumns` | src/lib/csv/CSVReader.cpp:96-101 | getline on one line yields its columns, an empty one at the very end excepted |
| `CsvFiles.CSVWriter.Append` | src/lib/csv/CSVWriter.cpp:44-56 | the row goes behind the last one, on a line of its own |
| `CsvFiles.CSVWriter.AppendToLine` | src/lib/csv/CSVWriter.cpp:58-99 | what is left in the file is the printed rows over the old characters |
| `CsvFiles.CSVWriter.ExtendRows` | src/lib/csv/CSVWriter.cpp:80-86 | the new columns go behind exactly the rows that match |
| `CsvFiles.CSVWriter.WriteRows` | src/lib/csv/CSVWriter.cpp:88-93 | writing row after row moves through the file from its start |
| `CsvFiles.CSVWriter.Open` | src/lib/csv/CSVWriter.cpp:6-18 | the file is created when it does not exist and not truncated when it does |
| `CsvFiles.CSVReader.ReadAll` | src/lib/csv/CSVReader.cpp:87-108 | all rows of an open file, and none of one that could not be opened |
| `Profiles.DiskAgrees` | src/server/profile/ProfileManager.cpp:38-52 | after any run of new users, follows, session changes and restarts, from no file or one printed from an earlier table, reading the file gives the users in memory with the same sets of followers |
| `Profiles.RunKeepsInv` | src/server/profile/ProfileManager.cpp:80-99 | the invariant behind it: the file is always the printed table of users and followers |
| `Profiles.FollowOnDisk` | src/server/profile/ProfilePersistency.cpp:45-55 | saving a follower leaves exactly the extended table in the file |
| `Profiles.LoadedUserIs` | src/server/profile/ProfilePersistency.cpp:14-23 | loading a row gives exactly its followers |
| `Profiles.UsersOk` | src/server/profile/User.cpp:33-67 | in every run followers are duplicate-free and without the user, and nobody has more than two sessions |
| `Profiles.CloseIsExact` | src/server/profile/User.cpp:69-77 | closing removes the named session and no other, when sessions start with ids that are not in use |
| `ProfileHistory.TableShowsHistory` | src/server/profile/ProfileManager.cpp:38-109 | told from the file at the start and the operations alone: after every run of sessions, follows and restarts the table holds exactly the users of the file and those with a first session, each with the number of users before it as id (one more when it was loaded), the followers who followed while both were registered, and the sessions that started while fewer than 2 were live and have not closed since |
| `ProfileHistory.RowsAre` | src/server/profile/ProfilePersistency.cpp:32-55 | the rows of the file are those users, in the order in which they were registered |
| `ProfileHistory.StartExactly` | src/server/profile/ProfileManager.cpp:80-99 | in every run: a new user is added with the number of users as id, no followers and this session; with at most one live session the session is added; with 2 nothing changes; nobody else ever does |
| `ProfileFile.ReadableExactly` | src/server/profile/ProfilePersistency.cpp:45-55 | after a follow the next start can read the file if and only if there was a file that it could read; files that a follow without a file has left included |
| `ProfileFile.NewUserReadBack` | src/server/profile/ProfilePersistency.cpp:32-43 | whatever the table in memory, storing a new user leaves the printed table with that user, readable again even if the file was empty, and adds the user to what the file is read as, unless it was there |
| `ProfileFile.FollowReadBack` | src/server/profile/ProfilePersistency.cpp:45-55 | whatever the table in memory, storing a follower adds that follower to what the file is read as, if the file has the user; without a row it leaves the empty file |
| `ProfileFile.NewUserAgreesExactly` | src/server/profile/ProfileManager.cpp:80-99 | for a replica that took over with a table of its own: after a new user, file and table agree if and only if they agreed on everybody else; if the file did not have the user, if and only if they agreed before; if the file was empty, if and only if the table was |
| `ProfileFile.FollowAgreesExactly` | src/server/profile/ProfileManager.cpp:38-52 | for such a replica: after a follow they agree if and only if they agreed on everything but this pair; if the file did not have the pair, if and only if they agreed before |
| `Profiles.NewUserSharesId` | src/server/profile/ProfileManager.cpp:80-99 | the first new user after a start from a non-empty file always gets the id of the user loaded last |
| `Users.AddFollowerKeeps` | src/server/profile/User.cpp:33-50 | the follower is added exactly if it is not the user and not there yet, and followers stay a set |
| `Users.BinarySearch` | src/server/profile/User.cpp:39-42 | the search in the sorted list finds exactly the members |
| `Users.SortedIsSorted` | src/server/profile/User.cpp:38-38 | sorting gives a sorted permutation |
| `Users.RemoveSessionExact` | src/server/profile/User.cpp:69-77 | looking at the first and the last session finds every session when there are at most two with distinct ids |
| `Users.UserBack` | src/server/profile/User.cpp:83-118 | deserialize gives back everything but the sessions, with the followers in order |
| `Users.User.AddFollower` | src/server/profile/User.cpp:33-50 | refused for the user itself and for a follower already there; otherwise the new one goes behind the sorted list. A refused follower may still leave the list sorted |
| `Users.User.AddSession` | src/server/profile/User.cpp:60-67 | with at most one session the new one goes last and it succeeds; with 2 nothing changes and it fails |
| `Users.User.RemoveSession` | src/server/profile/User.cpp:69-77 | removes at one end or nothing |
| `Users.User.Serialize` | src/server/profile/User.cpp:83-98 | the loops print the specified text |
| `Users.User.Deserialize` | src/server/profile/User.cpp:100-118 | the fields become what the parse function says; fewer than six parts change nothing |
| `ProfileCodec.ProfileBack` | src/server/profile/ProfileManager.cpp:115-138 | what a backup reads is exactly the users with a positive id, without sessions and with the followers in order, for every enumeration order |
| `ProfileCodec.WholeExactly` | src/server/profile/ProfileManager.cpp:115-138 | the trip keeps the table if and only if every id is positive and nobody has a session |
| `ProfileCodec.FirstUserDropped` | src/server/profile/ProfileManager.cpp:87-87 | the first user of an empty table has id 0, so no backup learns of it |
| `ProfileManagers.ProfileManager.Follow` | src/server/profile/ProfileManager.cpp:38-52 | table, file and callback change together, and only when the follower is new |
| `ProfileManagers.ProfileManager.StartSession` | src/server/profile/ProfileManager.cpp:80-99 | a new user is added with the size of the table as id, no followers and this session, and is stored and replicated; an old one gets the session if it has fewer than 2, and success says so; nobody else changes |
| `ProfileManagers.ProfileManager.CloseSession` | src/server/profile/ProfileManager.cpp:101-109 | only that user's sessions change |
| `ProfileManagers.ProfileManager.Update` | src/server/profile/ProfileManager.cpp:111-113 | the table becomes a copy of the other one |
| `ProfileManagers.ProfileManager.Serialize` | src/server/profile/ProfileManager.cpp:115-121 | the loop prints the specified text for some enumeration of the table |
| `ProfileManagers.ProfileManager.Deserialize` | src/server/profile/ProfileManager.cpp:123-138 | the loop builds exactly the table that the parse function describes, and an exception leaves the old one |
| `ProfileManagers.ProfilePersistency.ReadUsers` | src/server/profile/ProfilePersistency.cpp:7-30 | the loops yield one user for each row, numbered from 1 |
| `ProfileManagers.ProfilePersistency.SaveNewUser` | src/server/profile/ProfilePersistency.cpp:32-43 | one row is appended |
| `ProfileManagers.ProfilePersistency.SaveNewFollower` | src/server/profile/ProfilePersistency.cpp:45-55 | the row of the user is extended in place |

## Left out

- Sockets, `select`, `accept`, threads and mutexes: each manager operation, each join and each handler step is atomic; links are sequences and `recv` returns any positive number of the characters that arrive.
- Liveness: that an election ends, that a waiting thread wakes up, spurious wake-ups and the two-second sleep. A wait ends only when its peer answers, so a peer that crashes first blocks the election here as in the original.
- The run loops of ReplicaManager and ReplicaHandler are steps of a transition system on values, one per message or loop iteration, not methods of a class; update in place of the shared flags is not shown. The branches for updates are methods (`ReplicaHandlers`).
- ReplicaHandlers.ReplicaHandler.Handle: nothing is promised about the managers when a text cannot be read.
- Joins at a leader other than the original one: the safety proof excludes them. `ElectionLateJoin` shows a failure and a condition under which it comes about; the exact one is not stated.
- Frontends, their notification about a new leader, the user interface, and the routes that call the managers.
- Notifications that are still in a session queue when its connection ends: delivery stops at the session queue.
- Stack buffers, allocation and deletion: `read(n)` takes n characters, and `%s` any token; a negative size in a frame is the outcome `Undefined`.
- NotificationManagers.NotificationManager.Subscribe: requires a session queue that no other session uses, as every consumer has its own.
- NotificationManagers.NotificationManager.Deserialize: nothing is promised about the object when a read fails.
- NotificationManagers.NotificationQueue.Insert: the pending queue is a sequence field, not a second queue object; its lock is never contended.
- Connections.TCPConnection.Receive: the variant with a timeout only waits first. Errors of `recv` other than the end of the stream are not modelled; they end `receive` in the same way.
- CsvFiles.CSVWriter.AppendToLine: requires that no line behind a first non-empty one is empty, because formatLine is undefined on a row without columns. The files of the server never have one.
- ProfileManagers.ProfileManager.Follow: requires the same of the file; every file that the server has written meets it (`Profiles.DiskAgrees`).
- ProfileManagers.ProfilePersistency.ReadUsers: requires a file without empty lines, because the original reads the first column of every row.
- Users.SortedIsSorted: the library's merge sort is stood for by an insertion sort; equal strings cannot be told apart, so the result is the same.
- ReplicaInfos.ParseBack: `atoi` is undefined for numbers that are no `int`; the model returns the number.
- `readLine`, `searchFor`, `splitByLength`, `removePrefix`, `breakPayload` and the UDP socket: not used by the parts above, or simple.
