/** The records the server keeps and the messages it exchanges. */
module Types {
  import opened Bytes
  import opened Blobs
  import opened RateLimit

  /** Peer and connection numbers count up from 1; 0 stands for "none". */
  type PeerId = nat
  type ConnId = nat
  /** A socket address, identified with its printed key; 0 is the all-zero address. */
  type Addr = nat
  type Key = string

  const COMMONWEALTH: nat := 0x3C
  const GUEST_OFFSET_X := 80.0
  const PLUGIN_VERSION := 12
  const HELLO_PROTOCOL := 12
  const CLIENT_TIMEOUT := 8.0
  const PENDING_TIMEOUT := 10.0

  datatype Place = Place(location: nat, x: real, y: real, z: real)

  datatype Pose = Pose(peerId: PeerId, place: Place, yaw: real, pitch: real, speed: real, vx: real, vy: real, flags: nat)

  datatype ActorPose = ActorPose(refFormId: nat, baseFormId: nat, place: Place, yaw: real, pitch: real, speed: real,
                                 vx: real, vy: real, flags: nat, unique: bool, dead: bool)

  datatype World = World(created: bool, spawn: Place, gameHour: real, gameDaysPassed: real, weatherFormId: nat,
                         hostPeerId: PeerId, host: Place)

  datatype PlayerRec = PlayerRec(key: Key, name: string, havePose: bool, place: Place, yaw: real,
                                 appearance: seq<Byte>, inventory: seq<Byte>)

  /** A live client; its peer id is its key in the client table. */
  datatype Client = Client(connId: ConnId, tcpAddr: Addr, udpAddr: Addr, udpBound: bool, udpToken: Word32, key: Key,
                           name: string, lastSeen: real, posesIn: nat, lastPose: Pose, havePose: bool,
                           appearance: seq<Byte>, inventory: seq<Byte>)

  datatype PendingTcp = PendingTcp(connId: ConnId, addr: Addr, connectedAt: real)

  datatype Config = Config(name: string, motd: string, maxPlayers: int, pvp: bool, password: string, interestUu: real)

  datatype Rates = Rates(query: map<Addr, Bucket>, hello: map<Addr, Bucket>, hit: map<PeerId, Bucket>,
                         pose: map<PeerId, Bucket>, chat: map<PeerId, Bucket>, blob: map<PeerId, Bucket>)

  datatype BlobKind = Appearance | Inventory

  datatype RejectReason =
    | Protocol | PluginVersion | NotInWorld | NoHost | HostNotStreaming | Full | Banned | Password | ModMismatch

  datatype Hello = HelloMsg(protocol: nat, headerVersion: nat, pluginVersion: nat, playerKey: string, name: string,
                            place: Place, gameDaysPassed: real, gameHour: real, weatherFormId: nat,
                            inWorld: bool, requireHost: bool, modHash: nat, password: string)

  /** A received frame or datagram after the header check. */
  datatype InMsg =
    | BadHeader
    | InHello(hello: Hello)
    | InSessionQuery
    | InBye
    | InWorldSnapshot(gameHour: real, gameDaysPassed: real, weatherFormId: nat, host: Place)
    | InBlob(kind: BlobKind, datagram: seq<Byte>)
    | InHeartbeat(stampMs: nat)
    | InChat(text: string)
    | InKick(target: PeerId, reason: string)
    | InTeleport(target: PeerId, place: Place)
    | InHit(attacker: PeerId, target: PeerId, damage: real, hitFlags: nat)
    | InUdpBind(peer: PeerId, token: Word32)
    | InPlayerPose(pose: Pose)
    | InActorPose(actor: ActorPose)
    | InOther

  predicate IsUdpOnly(m: InMsg) {
    m.InUdpBind? || m.InPlayerPose? || m.InActorPose?
  }

  datatype OutMsg =
    | Reject(why: RejectReason)
    | SessionInfo(hostPeerId: PeerId, hostPlace: Place, clientCount: nat, haveHost: bool, hostInterior: bool,
                  serverName: string, maxPlayers: int, motd: string, sessionFlags: nat)
    | Welcome(peerId: PeerId, isNew: bool, isHost: bool, sessionFlags: nat, udpToken: Word32)
    | WorldSnapshot(world: World, placeAt: Place, isNew: bool)
    | SessionRules(sessionFlags: nat)
    | Bye(gone: PeerId)
    | PlayerPose(pose: Pose)
    | ActorPoseMsg(actor: ActorPose)
    | BlobPacket(kind: BlobKind, from: PeerId, packet: seq<Byte>)
    | Chat(from: PeerId, text: string)
    | Hit(attacker: PeerId, target: PeerId, damage: real, hitFlags: nat)
    | Kick(target: PeerId, reason: string)
    | Teleport(target: PeerId, place: Place)
    | Heartbeat(peerId: PeerId, stampMs: nat)

  /** Commands for the network thread. */
  datatype Cmd =
    | TcpSend(connId: ConnId, peerId: PeerId, msg: OutMsg)
    | UdpSend(addr: Addr, msg: OutMsg)
    | BindPeer(connId: ConnId, peerId: PeerId)
    | CloseConn(connId: ConnId, peerId: PeerId := 0)
    | KeepPending(peerId: PeerId)

  /** Events from the network thread. */
  datatype NetEvent =
    | TcpAccept(connId: ConnId, addr: Addr)
    | TcpFrame(connId: ConnId, peerId: PeerId, msg: InMsg)
    | TcpClosed(connId: ConnId, peerId: PeerId)
    | UdpDatagram(addr: Addr, msg: InMsg)

  /** A job for the persistence thread. The records of one job have distinct keys, so
      they are written to distinct files and their order inside the job is immaterial. */
  datatype Job = Job(world: Option<World>, players: map<Key, PlayerRec>, bans: Option<set<Key>>)
}
