/**
 * How updates pass from the leader's managers to those of a backup: the loops of ReplicaManager that send
 * them, and the part of ReplicaHandler::run that reads them.
 */
module ReplicaHandlers {
  import opened InputStream
  import opened Packets
  import opened Connections
  import NotificationStore
  import NotificationManagers
  import StoreCodec
  import Profiles
  import ProfileCodec
  import ProfileManagers
  import Failover
  import ProfileReplication
  import ReplicaInfos

  /** What a replica's two managers show. */
  datatype Managers = Managers(users: Profiles.Table, store: NotificationStore.Store)

  /** The managers after a packet; packets of other kinds do not reach them. */
  function Handled(m: Managers, packet: PacketData): Read<Managers> {
    if packet.kind == UPDATE_PROFILE then
      var (users, _) :- ProfileCodec.ParseProfile(packet.payload);
      Got(m.(users := users), "")
    else if packet.kind == UPDATE_NOTIFICATION then
      var (store, _) :- StoreCodec.ParseStore(packet.payload);
      Got(m.(store := store), "")
    else Got(m, "")
  }

  /** A backup that reads the leader's notification update has its notifications, and its own users as before. */
  lemma NotificationsReach(
    m: Managers, st: NotificationStore.Store, text: string, sequenceNumber: int, timestamp: nat, rest: string, now: nat)
    requires Failover.IsText(st, text) && IsInt(sequenceNumber) && timestamp <= ULONG_MAX
    requires |Body(Failover.UpdatePacket(text, sequenceNumber, timestamp))| <= INT_MAX
    ensures
      var received := Receiving(Frame(Failover.UpdatePacket(text, sequenceNumber, timestamp)) + rest, now);
      && received.1 == rest && received.0.Received?
      && Handled(m, received.0.data) == Got(Managers(m.users, NotificationStore.Replicated(st)), "")
  {
    Failover.UpdateArrives(st, text, sequenceNumber, timestamp, rest, now);
  }

  /** One that reads the profile update has the leader's valid users, and its own notifications as before. */
  lemma ProfilesReach(
    m: Managers, users: Profiles.Table, text: string, sequenceNumber: int, timestamp: nat, rest: string, now: nat)
    requires ProfileReplication.IsText(users, text) && IsInt(sequenceNumber) && timestamp <= ULONG_MAX
    requires |Body(ProfileReplication.ProfilePacket(text, sequenceNumber, timestamp))| <= INT_MAX
    ensures
      var received := Receiving(Frame(ProfileReplication.ProfilePacket(text, sequenceNumber, timestamp)) + rest, now);
      && received.1 == rest && received.0.Received?
      && Handled(m, received.0.data) == Got(Managers(ProfileCodec.Kept(users), m.store), "")
  {
    ProfileReplication.ProfileArrives(users, text, sequenceNumber, timestamp, rest, now);
  }

  /** An entry of m_replicasVector. */
  datatype Peer = Peer(conn: TCPConnection, replica: ReplicaInfos.ReplicaInfo)

  /** The leader's side: its managers, and the connections to the other replicas. */
  class ReplicaManager {
    const m_info: ReplicaInfos.ReplicaInfo
    const m_profileManager: ProfileManagers.ProfileManager
    const m_notificationManager: NotificationManagers.NotificationManager
    const m_replicasVector: seq<Peer>

    constructor (info: ReplicaInfos.ReplicaInfo, profiles: ProfileManagers.ProfileManager,
                 notifications: NotificationManagers.NotificationManager, replicas: seq<Peer>)
      ensures m_info == info && m_profileManager == profiles && m_notificationManager == notifications
      ensures m_replicasVector == replicas
    {
      m_info := info;
      m_profileManager := profiles;
      m_notificationManager := notifications;
      m_replicasVector := replicas;
    }

    /** Each replica has a connection, and each connection a socket, of its own. */
    ghost predicate Separate()
      reads m_notificationManager
    {
      && (forall i, j :: 0 <= i < j < |m_replicasVector| ==>
            && m_replicasVector[i].conn != m_replicasVector[j].conn
            && m_replicasVector[i].conn.m_socket != m_replicasVector[j].conn.m_socket)
      && forall i :: 0 <= i < |m_replicasVector| ==>
           && m_replicasVector[i].conn !in m_notificationManager.Repr
           && m_replicasVector[i].conn.m_socket !in m_notificationManager.Repr
    }

    predicate IsNotEqualToMe(replica: ReplicaInfos.ReplicaInfo) {
      replica.ip != m_info.ip || replica.port != m_info.port
    }

    /** The packet, and nothing else, went over the connection, unless it is one to this replica itself. */
    twostate predicate WasSent(peer: Peer, packet: PacketData)
      reads peer.conn, peer.conn.m_socket
    {
      if IsNotEqualToMe(peer.replica) then
        && peer.conn.m_sequenceNumber == old(peer.conn.m_sequenceNumber) + 1
        && peer.conn.m_socket.outgoing == old(peer.conn.m_socket.outgoing) + Frame(packet)
      else
        && peer.conn.m_sequenceNumber == old(peer.conn.m_sequenceNumber)
        && peer.conn.m_socket.outgoing == old(peer.conn.m_socket.outgoing)
    }

    /** No connection but this one has changed. */
    twostate predicate OthersSame(i: nat)
      reads set j | 0 <= j < |m_replicasVector| :: m_replicasVector[j].conn
      reads set j | 0 <= j < |m_replicasVector| :: m_replicasVector[j].conn.m_socket
    {
      forall j :: 0 <= j < |m_replicasVector| && j != i ==>
        unchanged(m_replicasVector[j].conn) && unchanged(m_replicasVector[j].conn.m_socket)
    }

    method SendPacket(peer: Peer, kind: PacketType, text: string, now: nat)
      modifies peer.conn, peer.conn.m_socket
      ensures WasSent(peer, TextPacket(kind, text, old(peer.conn.m_sequenceNumber), now))
    {
      if IsNotEqualToMe(peer.replica) {
        var packet := new Packet(kind, text, now);
        peer.conn.Send(packet, now);
      }
    }

    ghost predicate ShowsStore(st: NotificationStore.Store)
      reads m_notificationManager, m_notificationManager.Repr
    {
      m_notificationManager.Valid() && Separate() && m_notificationManager.View() == st
    }

    /** A text of the store went to the peer. */
    twostate predicate StoreSent(peer: Peer, text: string, now: nat, st: NotificationStore.Store)
      reads peer.conn, peer.conn.m_socket
    {
      && StoreCodec.Prints(st, text)
      && WasSent(peer, Failover.UpdatePacket(text, old(peer.conn.m_sequenceNumber), now))
    }

    method SendNotificationTo(i: nat, now: nat, ghost st: NotificationStore.Store) returns (text: string)
      requires ShowsStore(st) && i < |m_replicasVector|
      modifies m_replicasVector[i].conn, m_replicasVector[i].conn.m_socket
      ensures ShowsStore(st) && OthersSame(i) && StoreSent(m_replicasVector[i], text, now, st)
    {
      text := m_notificationManager.Serialize();
      SendPacket(m_replicasVector[i], UPDATE_NOTIFICATION, text, now);
    }

    ghost predicate ShowsUsers(users: Profiles.Table)
      reads m_notificationManager, m_profileManager, m_profileManager.m_users.Values
    {
      m_profileManager.Valid() && Separate() && m_profileManager.View() == users
    }

    /** A text of the users went to the peer. */
    twostate predicate ProfileSent(peer: Peer, text: string, now: nat, users: Profiles.Table)
      reads peer.conn, peer.conn.m_socket
    {
      && ProfileCodec.Prints(users, text)
      && WasSent(peer, ProfileReplication.ProfilePacket(text, old(peer.conn.m_sequenceNumber), now))
    }

    method SendProfileTo(i: nat, now: nat, ghost users: Profiles.Table) returns (text: string)
      requires ShowsUsers(users) && i < |m_replicasVector|
      modifies m_replicasVector[i].conn, m_replicasVector[i].conn.m_socket
      ensures ShowsUsers(users) && OthersSame(i) && ProfileSent(m_replicasVector[i], text, now, users)
    {
      text := m_profileManager.Serialize();
      SendPacket(m_replicasVector[i], UPDATE_PROFILE, text, now);
    }

    /** sendNotificationUpdate: the store is printed, and sent, for every replica. */
    method SendNotificationUpdate(now: nat) returns (ghost texts: seq<string>)
      requires m_notificationManager.Valid() && Separate()
      modifies set i | 0 <= i < |m_replicasVector| :: m_replicasVector[i].conn
      modifies set i | 0 <= i < |m_replicasVector| :: m_replicasVector[i].conn.m_socket
      ensures ShowsStore(old(m_notificationManager.View())) && |texts| == |m_replicasVector|
      ensures forall i :: 0 <= i < |m_replicasVector| ==>
        StoreSent(m_replicasVector[i], texts[i], now, old(m_notificationManager.View()))
    {
      ghost var st := m_notificationManager.View();
      texts := [];
      for i := 0 to |m_replicasVector|
        invariant ShowsStore(st) && |texts| == i
        invariant forall j :: 0 <= j < i ==> StoreSent(m_replicasVector[j], texts[j], now, st)
        invariant forall j :: i <= j < |m_replicasVector| ==>
          unchanged(m_replicasVector[j].conn) && unchanged(m_replicasVector[j].conn.m_socket)
      {
        var text := SendNotificationTo(i, now, st);
        texts := texts + [text];
      }
    }

    /** sendProfileUpdate: the users are printed, and sent, for every replica. */
    method SendProfileUpdate(now: nat) returns (ghost texts: seq<string>)
      requires m_profileManager.Valid() && Separate()
      modifies set i | 0 <= i < |m_replicasVector| :: m_replicasVector[i].conn
      modifies set i | 0 <= i < |m_replicasVector| :: m_replicasVector[i].conn.m_socket
      ensures ShowsUsers(old(m_profileManager.View())) && |texts| == |m_replicasVector|
      ensures forall i :: 0 <= i < |m_replicasVector| ==>
        ProfileSent(m_replicasVector[i], texts[i], now, old(m_profileManager.View()))
    {
      ghost var users := m_profileManager.View();
      texts := [];
      for i := 0 to |m_replicasVector|
        invariant ShowsUsers(users) && |texts| == i
        invariant forall j :: 0 <= j < i ==> ProfileSent(m_replicasVector[j], texts[j], now, users)
        invariant forall j :: i <= j < |m_replicasVector| ==>
          unchanged(m_replicasVector[j].conn) && unchanged(m_replicasVector[j].conn.m_socket)
      {
        var text := SendProfileTo(i, now, users);
        texts := texts + [text];
      }
    }
  }

  class ReplicaHandler {
    const m_profileManager: ProfileManagers.ProfileManager
    const m_notificationManager: NotificationManagers.NotificationManager

    constructor (profiles: ProfileManagers.ProfileManager, notifications: NotificationManagers.NotificationManager)
      ensures m_profileManager == profiles && m_notificationManager == notifications
    {
      m_profileManager := profiles;
      m_notificationManager := notifications;
    }

    ghost predicate Valid()
      reads m_profileManager, m_notificationManager, m_notificationManager.Repr
    {
      m_profileManager.Valid() && m_notificationManager.Valid() && m_profileManager !in m_notificationManager.Repr
    }

    ghost function Shown(): Managers
      requires Valid()
      reads m_profileManager, m_profileManager.m_users.Values, m_notificationManager, m_notificationManager.Repr
    {
      Managers(m_profileManager.View(), m_notificationManager.View())
    }

    /** What `run` does with an update.  `ok` is false when the text cannot be read; nothing is promised then. */
    method Handle(packet: PacketData) returns (ok: bool)
      requires Valid()
      modifies m_profileManager, m_notificationManager
      ensures ok <==> Handled(old(Shown()), packet).Got?
      ensures ok ==> Valid() && Shown() == Handled(old(Shown()), packet).value
    {
      ok := true;
      if packet.kind == UPDATE_PROFILE {
        ok := HandleProfile(packet.payload);
      } else if packet.kind == UPDATE_NOTIFICATION {
        ok := HandleNotification(packet.payload);
      }
    }

    method HandleProfile(payload: string) returns (ok: bool)
      requires m_profileManager.Valid()
      modifies m_profileManager`m_users
      ensures m_profileManager.Valid() && (ok <==> ProfileCodec.ParseProfile(payload).Got?)
      ensures ok ==> m_profileManager.View() == ProfileCodec.ParseProfile(payload).value
    {
      var updatedManager := new ProfileManagers.ProfileManager(m_profileManager.disk);
      ok := updatedManager.Deserialize(payload);
      if ok {
        m_profileManager.Update(updatedManager);
      }
    }

    method HandleNotification(payload: string) returns (ok: bool)
      requires m_notificationManager.Valid()
      modifies m_notificationManager
      ensures ok <==> StoreCodec.ParseStore(payload).Got?
      ensures ok ==> m_notificationManager.Valid() && m_profileManager !in m_notificationManager.Repr
      ensures ok ==> m_notificationManager.View() == StoreCodec.ParseStore(payload).value
    {
      var updatedManager := new NotificationManagers.NotificationManager();
      ok := updatedManager.Deserialize(payload);
      if ok {
        m_notificationManager.Update(updatedManager);
      }
    }
  }
}
