/** The simulation thread as a state machine on values: what each event does to the
    session state, which commands it queues for the network thread and which jobs it
    queues for the persistence thread. The order in which an unordered map is walked,
    the client `find_host` falls on and the clock are inputs of a step. */
module Session {
  import opened Bytes
  import opened Blobs
  import opened RateLimit
  import opened Types
  import Wire

  datatype State = State(
    cfg: Config, world: World, players: map<Key, PlayerRec>, banned: set<Key>,
    clients: map<PeerId, Client>, udpIndex: map<Addr, PeerId>, pending: seq<PendingTcp>,
    appearAsm: map<PeerId, Assembly>, invAsm: map<PeerId, Assembly>,
    dirty: set<Key>, worldDirty: bool, nextPeer: PeerId, modHash: nat, tokenSeed: Word32, rates: Rates)

  /** What one step leaves behind. */
  datatype Effect = Effect(state: State, cmds: seq<Cmd>, jobs: seq<Job>)

  /** The unobservable choices of a step: iteration order, host fallback, clock reading. */
  datatype Oracle = Oracle(order: seq<PeerId>, host: PeerId, now: real)

  function Quiet(s: State): Effect { Effect(s, [], []) }

  // ---------------------------------------------------------------- small parts

  predicate KeyChar(c: char) {
    'a' <= c <= 'z' || 'A' <= c <= 'Z' || '0' <= c <= '9' || c == '-' || c == '_'
  }

  function KeepKeyChars(raw: string): string {
    if raw == [] then []
    else KeepKeyChars(raw[..|raw| - 1]) + (if KeyChar(raw[|raw| - 1]) then [raw[|raw| - 1]] else [])
  }

  /** `sanitize_player_key` with the fallback the server uses. */
  function SanitizeKey(raw: string): (r: Key)
    ensures r != []
  {
    var out := KeepKeyChars(raw);
    if out == [] then "player" else if |out| > 31 then out[..31] else out
  }

  /** `make_udp_token`: a 32-bit linear congruential step that never yields 0. */
  function NextToken(seed: Word32): (r: Word32)
    ensures r != 0
  {
    var v := (seed as int * 1664525 + 1013904223) % 0x1_0000_0000;
    if v == 0 then 1 else v
  }

  function SessionFlags(cfg: Config): nat {
    (if cfg.pvp then 1 else 0) + (if cfg.password != "" then 2 else 0)
  }

  function MakePose(p: PeerId, place: Place, yaw: real): Pose {
    Pose(p, place, yaw, 0.0, 0.0, 0.0, 0.0, 0)
  }

  function ClampHitDamage(damage: real): real {
    if !(damage > 0.0) then 0.0 else if damage > 500.0 then 500.0 else damage
  }

  predicate InInterest(a: Place, haveA: bool, b: Place, haveB: bool, maxUu: real) {
    maxUu <= 0.0 || !haveA || !haveB
    || (a.location != 0 && b.location != 0 && a.location != b.location)
    || (a.x - b.x) * (a.x - b.x) + (a.y - b.y) * (a.y - b.y) + (a.z - b.z) * (a.z - b.z) <= maxUu * maxUu
  }

  const DEFAULT_REC := PlayerRec("", "", false, Place(COMMONWEALTH, -79348.0, 89752.0, 7936.0), 0.0, [], [])

  function RecOf(players: map<Key, PlayerRec>, k: Key): PlayerRec {
    if k in players then players[k] else DEFAULT_REC
  }

  function AsmOf(table: map<PeerId, Assembly>, p: PeerId): Assembly {
    if p in table then table[p] else EMPTY
  }

  /** The pending list without the entry for a connection. */
  function Without(pending: seq<PendingTcp>, c: ConnId): seq<PendingTcp> {
    if pending == [] then []
    else
      var last := pending[|pending| - 1];
      Without(pending[..|pending| - 1], c) + (if last.connId == c then [] else [last])
  }

  /** `find_pending`: index of the first entry for a connection, or -1. */
  function FindPending(pending: seq<PendingTcp>, c: ConnId): (i: int)
    ensures -1 <= i < |pending|
    ensures i >= 0 ==> pending[i].connId == c && forall j :: 0 <= j < i ==> pending[j].connId != c
    ensures i < 0 ==> forall j :: 0 <= j < |pending| ==> pending[j].connId != c
  {
    if pending == [] then -1
    else
      var n := |pending| - 1;
      var i := FindPending(pending[..n], c);
      if i >= 0 then i else if pending[n].connId == c then n else -1
  }

  ghost predicate Owns(clients: map<PeerId, Client>, p: PeerId, c: ConnId) {
    p in clients && clients[p].connId == c
  }

  /** `find_by_conn`: some client on the connection. */
  ghost function OwnerOf(clients: map<PeerId, Client>, c: ConnId): (r: Option<PeerId>)
    ensures r.Some? ==> Owns(clients, r.value, c)
    ensures r.None? ==> forall p :: !Owns(clients, p, c)
  {
    if exists p :: Owns(clients, p, c) then (var p :| Owns(clients, p, c); Some(p)) else None
  }

  ghost predicate HasKey(clients: map<PeerId, Client>, p: PeerId, k: Key) {
    p in clients && clients[p].key == k
  }

  /** The search for a live client with the same player key. */
  ghost function ByKey(clients: map<PeerId, Client>, k: Key): (r: Option<PeerId>)
    ensures r.Some? ==> HasKey(clients, r.value, k)
    ensures r.None? ==> forall p :: !HasKey(clients, p, k)
  {
    if exists p :: HasKey(clients, p, k) then (var p :| HasKey(clients, p, k); Some(p)) else None
  }

  /** `find_host`: keeps a live host, else falls on any client, else clears the role. */
  function FindHost(clients: map<PeerId, Client>, w: World, choice: PeerId): World {
    if w.hostPeerId in clients then w
    else w.(hostPeerId := if choice in clients then choice else 0)
  }

  /** `unbind_udp`. */
  function UnbindUdp(s: State, p: PeerId): State
    requires p in s.clients
  {
    var c := s.clients[p];
    if !c.udpBound then s
    else s.(udpIndex := s.udpIndex - {c.udpAddr}, clients := s.clients[p := c.(udpBound := false, udpAddr := 0)])
  }

  /** `flush_dirty_async`. */
  function Flush(s: State): (State, seq<Job>) {
    var job := Job(if s.worldDirty then Some(s.world) else None,
                   map k | k in s.dirty && k in s.players :: s.players[k],
                   None);
    (s.(dirty := {}, worldDirty := false), if job.world.None? && job.players == map[] then [] else [job])
  }

  // ---------------------------------------------------------------- sending

  function SendTcp(c: Client, p: PeerId, m: OutMsg): seq<Cmd> {
    if c.connId == 0 then [] else [TcpSend(c.connId, p, m)]
  }

  function SendUdp(c: Client, m: OutMsg): seq<Cmd> {
    if c.udpBound then [UdpSend(c.udpAddr, m)] else []
  }

  function KindByte(k: BlobKind): Byte {
    if k.Appearance? then Wire.APPEARANCE_CHUNK else Wire.INVENTORY_CHUNK
  }

  function SendPackets(c: Client, p: PeerId, kind: BlobKind, from: PeerId, packets: seq<seq<Byte>>): seq<Cmd> {
    if packets == [] then []
    else SendPackets(c, p, kind, from, packets[..|packets| - 1])
         + SendTcp(c, p, BlobPacket(kind, from, packets[|packets| - 1]))
  }

  /** `send_blob_tcp`: every chunk of the blob, in order. */
  function SendBlob(c: Client, p: PeerId, kind: BlobKind, from: PeerId, blob: seq<Byte>): seq<Cmd> {
    SendPackets(c, p, kind, from, Packets(KindByte(kind), from % 0x1_0000_0000, blob))
  }

  /** The loops over all clients, by what each visited client contributes. */
  datatype Fan =
    | ToOthers(except: PeerId, msg: OutMsg)
    | ToAll(msg: OutMsg)
    | ToOne(target: PeerId, msg: OutMsg)
    | BlobToOthers(from: PeerId, kind: BlobKind, blob: seq<Byte>)
    | PoseToInterested(from: PeerId, pose: Pose)
    | ActorToInterested(from: PeerId, actor: ActorPose)
    | PosesOfOthers(to: PeerId)
    | CatchUp(to: PeerId)

  /** What visiting client `p` queues. */
  function Visit(clients: map<PeerId, Client>, maxUu: real, f: Fan, p: PeerId): seq<Cmd> {
    if p !in clients then []
    else
      var c := clients[p];
      match f
      case ToOthers(except, m) => if p == except then [] else SendTcp(c, p, m)
      case ToAll(m) => SendTcp(c, p, m)
      case ToOne(target, m) => if p == target then SendTcp(c, p, m) else []
      case BlobToOthers(from, kind, blob) => if p == from then [] else SendBlob(c, p, kind, from, blob)
      case PoseToInterested(from, pose) =>
        if p != from && c.udpBound && from in clients
           && InInterest(clients[from].lastPose.place, clients[from].havePose, c.lastPose.place, c.havePose, maxUu)
        then SendUdp(c, PlayerPose(pose)) else []
      case ActorToInterested(from, actor) =>
        if p != from && c.udpBound && InInterest(actor.place, true, c.lastPose.place, c.havePose, maxUu)
        then SendUdp(c, ActorPoseMsg(actor)) else []
      case PosesOfOthers(to) =>
        if p == to || !c.havePose || to !in clients then [] else SendUdp(clients[to], PlayerPose(c.lastPose))
      case CatchUp(to) =>
        if p == to || !c.havePose || to !in clients then []
        else
          SendUdp(clients[to], PlayerPose(c.lastPose))
          + (if c.appearance != [] then SendBlob(clients[to], to, Appearance, p, c.appearance) else [])
          + (if c.inventory != [] then SendBlob(clients[to], to, Inventory, p, c.inventory) else [])
  }

  function FanOut(clients: map<PeerId, Client>, maxUu: real, f: Fan, order: seq<PeerId>): seq<Cmd> {
    if order == [] then []
    else FanOut(clients, maxUu, f, order[..|order| - 1]) + Visit(clients, maxUu, f, order[|order| - 1])
  }

  function Broadcast(s: State, f: Fan, o: Oracle): seq<Cmd> {
    FanOut(s.clients, s.cfg.interestUu, f, o.order)
  }

  // ---------------------------------------------------------------- leaving

  /** Marking the leaver's record and clearing its host role. */
  function Leaving(s: State, p: PeerId): State
    requires p in s.clients
  {
    s.(dirty := if s.clients[p].key in s.players then s.dirty + {s.clients[p].key} else s.dirty,
       world := if p == s.world.hostPeerId then s.world.(hostPeerId := 0) else s.world)
  }

  /** What becomes of the leaver's connection: kept pending, closed, or gone already. */
  function LeaveCmds(c: Client, p: PeerId, keepTcp: bool): seq<Cmd> {
    if c.connId == 0 then [] else if keepTcp then [KeepPending(p)] else [CloseConn(c.connId)]
  }

  function LeavePending(pending: seq<PendingTcp>, c: Client, keepTcp: bool, now: real): seq<PendingTcp> {
    if keepTcp && c.connId != 0 then pending + [PendingTcp(c.connId, c.tcpAddr, now)] else pending
  }

  /** The tables without the leaver, and with a host if anyone is left. */
  function Left(s: State, p: PeerId, pending': seq<PendingTcp>, choice: PeerId): State {
    s.(pending := pending', clients := s.clients - {p}, world := FindHost(s.clients - {p}, s.world, choice))
  }

  /** `remove_client`. */
  function RemoveClient(s: State, p: PeerId, keepTcp: bool, o: Oracle): Effect {
    if p !in s.clients then Quiet(s)
    else
      var c := s.clients[p];
      var byes := Broadcast(s, ToOthers(p, Bye(p)), o);
      var s2 := UnbindUdp(Leaving(s, p), p);
      var (s4, jobs) := Flush(Left(s2, p, LeavePending(s2.pending, c, keepTcp, o.now), o.host));
      Effect(s4, byes + LeaveCmds(c, p, keepTcp), jobs)
  }

  /** The `kick` admin command on the client it matches: a Bye to the victim only. */
  function AdminKick(s: State, p: PeerId, ban: bool, o: Oracle): Effect {
    if p !in s.clients then Quiet(s)
    else
      var c := s.clients[p];
      var banned' := if ban then s.banned + {c.key} else s.banned;
      var jobs := if ban then [Job(None, map[], Some(banned'))] else [];
      var s2 := UnbindUdp(Leaving(s.(banned := banned'), p), p);
      Effect(Left(s2, p, s2.pending, o.host), SendTcp(c, p, Bye(p)) + LeaveCmds(c, p, false), jobs)
  }

  // ---------------------------------------------------------------- joining

  /** The session after the host lookup that a query or a require-host Hello makes. */
  function WithHost(s: State, o: Oracle): State {
    s.(world := FindHost(s.clients, s.world, o.host))
  }

  /** `SessionQuery` on a pending connection. */
  function Query(s: State, conn: ConnId, o: Oracle): Effect {
    var s1 := WithHost(s, o);
    var w := s1.world;
    var have := w.hostPeerId in s1.clients && s1.clients[w.hostPeerId].havePose && w.hostPeerId != 0;
    var info := SessionInfo(if have then w.hostPeerId else 0,
                            if have then w.host else Place(0, 0.0, 0.0, 0.0),
                            |s1.clients|, have,
                            have && w.host.location != 0 && w.host.location != COMMONWEALTH,
                            s1.cfg.name, s1.cfg.maxPlayers, s1.cfg.motd, SessionFlags(s1.cfg));
    Effect(s1, [TcpSend(conn, 0, info)], [])
  }

  /** The gates that look at the Hello and the configuration only, in order. */
  function StaticGate(s: State, h: Hello): Option<RejectReason> {
    if h.protocol != HELLO_PROTOCOL || h.headerVersion != HELLO_PROTOCOL then Some(Protocol)
    else if h.pluginVersion != PLUGIN_VERSION then Some(PluginVersion)
    else if !h.inWorld then Some(NotInWorld)
    else if SanitizeKey(h.playerKey) in s.banned then Some(Banned)
    else if s.cfg.password != "" && (h.password == "" || s.cfg.password != h.password) then Some(Password)
    else if s.modHash != 0 && h.modHash != s.modHash then Some(ModMismatch)
    else None
  }

  /** The gates of a Hello, in the order they are tried. */
  ghost function Gate(s: State, h: Hello, o: Oracle): Option<RejectReason> {
    if StaticGate(s, h).Some? then StaticGate(s, h)
    else if h.requireHost && !LiveHost(WithHost(s, o)) then Some(NoHost)
    else if h.requireHost && WithHost(s, o).world.host.location != COMMONWEALTH then Some(HostNotStreaming)
    else if ByKey(s.clients, SanitizeKey(h.playerKey)).None? && |s.clients| >= s.cfg.maxPlayers then Some(Full)
    else None
  }

  predicate LiveHost(s: State) {
    var h := s.world.hostPeerId;
    h != 0 && h in s.clients && s.clients[h].havePose
  }

  /** The record and the world as a welcomed Hello finds or makes them. */
  function Enroll(s: State, h: Hello): State {
    var k := SanitizeKey(h.playerKey);
    var rec := RecOf(s.players, k).(key := k);
    var rec' := if rec.name == "" then rec.(name := if h.name != "" then h.name else "player") else rec;
    s.(players := s.players[k := rec'],
       world := s.world.(created := true),
       worldDirty := s.worldDirty || !s.world.created)
  }

  /** A client record moved to a new connection, with a new token. */
  function Refreshed(c: Client, rec: PlayerRec, p: PeerId, conn: ConnId, addr: Addr, h: Hello, t: real, token: Word32): Client {
    var c1 := c.(connId := conn, tcpAddr := addr, lastSeen := t, key := SanitizeKey(h.playerKey),
                 name := if h.name != "" then h.name else c.name,
                 udpToken := token, udpBound := false,
                 appearance := if rec.appearance != [] then rec.appearance else c.appearance,
                 inventory := if rec.inventory != [] then rec.inventory else c.inventory);
    if !c1.havePose && rec.havePose then c1.(lastPose := MakePose(p, rec.place, rec.yaw), havePose := true) else c1
  }

  /** Re-attaching a live client to the pending connection. */
  function Reattach(s: State, p: PeerId, conn: ConnId, addr: Addr, h: Hello, t: real): Effect
    requires p in s.clients
  {
    var k := SanitizeKey(h.playerKey);
    var rec := RecOf(s.players, k);
    var s1 := UnbindUdp(s, p);
    var c := s1.clients[p];
    var token := NextToken(s1.tokenSeed);
    Effect(s1.(clients := s1.clients[p := Refreshed(c, rec, p, conn, addr, h, t, token)], tokenSeed := token),
           (if c.connId != 0 && c.connId != conn then [CloseConn(c.connId)] else []) + BindCmd(conn, p),
           [])
  }

  /** `bind_peer`. */
  function BindCmd(conn: ConnId, p: PeerId): seq<Cmd> {
    if conn != 0 && p != 0 then [BindPeer(conn, p)] else []
  }

  /** The client record made for a new peer. */
  function NewClient(s: State, conn: ConnId, addr: Addr, h: Hello, t: real): Client {
    var k := SanitizeKey(h.playerKey);
    var rec := RecOf(s.players, k);
    Client(conn, addr, 0, false, NextToken(s.tokenSeed), k, if h.name != "" then h.name else rec.name, t, 0,
           if !rec.havePose then MakePose(s.nextPeer, s.world.spawn, 0.0) else MakePose(s.nextPeer, rec.place, rec.yaw),
           true, rec.appearance, rec.inventory)
  }

  /** Adding a new client; it takes the host role when there is none. */
  function AddClient(s: State, conn: ConnId, addr: Addr, h: Hello, t: real): Effect {
    var p := s.nextPeer;
    Effect(s.(clients := s.clients[p := NewClient(s, conn, addr, h, t)],
              nextPeer := p + 1,
              tokenSeed := NextToken(s.tokenSeed),
              world := if s.world.hostPeerId == 0 then s.world.(hostPeerId := p) else s.world),
           BindCmd(conn, p),
           [])
  }

  /** The late fallback for a new client that demanded a host when there is none. */
  function LateNoHost(s: State, conn: ConnId): Effect {
    Effect(s.(nextPeer := s.nextPeer + 1, tokenSeed := NextToken(s.tokenSeed)),
           (if conn != 0 then [TcpSend(conn, 0, Reject(NoHost)), CloseConn(conn)] else []), [])
  }

  /** What the host's own Hello writes into the world. */
  function HostHello(s: State, p: PeerId, h: Hello): State {
    if p != s.world.hostPeerId then s
    else
      s.(world := s.world.(gameHour := h.gameHour, gameDaysPassed := h.gameDaysPassed, weatherFormId := h.weatherFormId,
                           host := h.place.(location := if h.place.location != 0 then h.place.location else s.world.host.location)),
         worldDirty := true,
         modHash := if s.modHash == 0 && h.modHash != 0 then h.modHash else s.modHash)
  }

  function PlaceFor(s: State, rec: PlayerRec, isNew: bool, requireHost: bool): Place {
    var w := s.world.host;
    if requireHost then w.(x := w.x + GUEST_OFFSET_X)
    else if !isNew && rec.havePose && rec.place.location != 0 && rec.place.location == w.location then rec.place
    else w
  }

  /** The messages a joined client gets. */
  function Greet(s: State, p: PeerId, isNew: bool, requireHost: bool, o: Oracle): seq<Cmd>
    requires p in s.clients
  {
    var c := s.clients[p];
    SendTcp(c, p, Welcome(p, isNew, p == s.world.hostPeerId, SessionFlags(s.cfg), c.udpToken))
    + SendTcp(c, p, WorldSnapshot(s.world, PlaceFor(s, RecOf(s.players, c.key), isNew, requireHost), isNew))
    + Broadcast(s, CatchUp(p), o)
  }

  /** A Hello that passed every gate. */
  ghost function Admit(s: State, conn: ConnId, addr: Addr, h: Hello, t: real, o: Oracle): Effect {
    var k := SanitizeKey(h.playerKey);
    var isNew := !RecOf(s.players, k).havePose;
    var s1 := Enroll(s, h);
    var same := ByKey(s.clients, k);
    if same.None? && h.requireHost && s1.world.hostPeerId == 0 then
      var e := LateNoHost(s1, conn);
      e.(state := e.state.(pending := Without(e.state.pending, conn)))
    else
      var e := if same.Some? then Reattach(s1, same.value, conn, addr, h, t) else AddClient(s1, conn, addr, h, t);
      var p := if same.Some? then same.value else s1.nextPeer;
      var s2 := HostHello(e.state.(pending := Without(e.state.pending, conn)), p, h);
      Effect(s2, e.cmds + Greet(s2, p, isNew, h.requireHost, o), [])
  }

  /** A Hello on a pending connection, after its rate check. */
  ghost function OnHello(s: State, conn: ConnId, addr: Addr, h: Hello, t: real, o: Oracle): Effect {
    var looked := if h.requireHost && StaticGate(s, h).None? then WithHost(s, o) else s;
    match Gate(s, h, o)
    case Some(r) => Effect(looked, [TcpSend(conn, 0, Reject(r))], [])
    case None => Admit(looked, conn, addr, h, t, o)
  }

  /** `handle_pending_message`. */
  ghost function HandlePending(s: State, entry: PendingTcp, m: InMsg, t: real, o: Oracle): Effect {
    match m
    case InSessionQuery =>
      var (q, ok) := AllowRate(s.rates.query, entry.addr, t, 4);
      var s1 := s.(rates := s.rates.(query := q));
      if ok then Query(s1, entry.connId, o) else Quiet(s1)
    case InHello(h) =>
      var (q, ok) := AllowRate(s.rates.hello, entry.addr, t, 2);
      var s1 := s.(rates := s.rates.(hello := q));
      if ok then OnHello(s1, entry.connId, entry.addr, h, t, o) else Quiet(s1)
    case _ => Quiet(s)
  }

  // ---------------------------------------------------------------- TCP messages of live clients

  function Touch(s: State, p: PeerId, t: real): State
    requires p in s.clients
  {
    s.(clients := s.clients[p := s.clients[p].(lastSeen := t)])
  }

  /** A new token for a client; its old UDP binding goes. */
  function Retoken(s: State, p: PeerId): State
    requires p in s.clients
  {
    var token := NextToken(s.tokenSeed);
    UnbindUdp(s.(tokenSeed := token, clients := s.clients[p := s.clients[p].(udpToken := token)]), p)
  }

  /** A second Hello on a live connection: new token, UDP binding dropped. */
  function HelloAgain(s: State, p: PeerId): Effect
    requires p in s.clients
  {
    var s1 := Retoken(s, p);
    var c := s1.clients[p];
    var rec := RecOf(s1.players, c.key);
    Effect(s1.(players := s1.players[c.key := rec]),
           SendTcp(c, p, Welcome(p, !rec.havePose, p == s1.world.hostPeerId, SessionFlags(s1.cfg), c.udpToken)), [])
  }

  function HostSnapshot(s: State, p: PeerId, m: InMsg): State
    requires m.InWorldSnapshot?
  {
    if p != s.world.hostPeerId then s
    else s.(world := s.world.(gameHour := m.gameHour, gameDaysPassed := m.gameDaysPassed, weatherFormId := m.weatherFormId,
                              host := m.host.(location := if m.host.location != 0 then m.host.location else s.world.host.location)),
            worldDirty := true)
  }

  function WithAsm(s: State, kind: BlobKind, table: map<PeerId, Assembly>): State {
    if kind.Appearance? then s.(appearAsm := table) else s.(invAsm := table)
  }

  function AsmTable(s: State, kind: BlobKind): map<PeerId, Assembly> {
    if kind.Appearance? then s.appearAsm else s.invAsm
  }

  /** Storing a finished blob in the record and in the live client. */
  function KeepBlob(s: State, p: PeerId, kind: BlobKind, blob: seq<Byte>): State
    requires p in s.clients
  {
    var c := s.clients[p];
    var rec := RecOf(s.players, c.key).(key := c.key);
    s.(clients := s.clients[p := if kind.Appearance? then c.(appearance := blob) else c.(inventory := blob)],
       players := s.players[c.key := if kind.Appearance? then rec.(appearance := blob) else rec.(inventory := blob)],
       dirty := s.dirty + {c.key})
  }

  ghost predicate AsmOk(table: map<PeerId, Assembly>) {
    forall p :: p in table ==> ValidAssembly(table[p])
  }

  /** `take_blob` on the client's assembly, and what follows when it completes. */
  function TakeChunk(s: State, p: PeerId, kind: BlobKind, datagram: seq<Byte>, o: Oracle): Effect
    requires p in s.clients && AsmOk(AsmTable(s, kind))
  {
    var table := AsmTable(s, kind);
    var (asm, status) := Accept(AsmOf(table, p), datagram);
    if !status.Complete? then Quiet(WithAsm(s, kind, table[p := asm]))
    else
      var s1 := KeepBlob(WithAsm(s, kind, table - {p}), p, kind, status.blob);
      Effect(s1, Broadcast(s1, BlobToOthers(p, kind, status.blob), o), [])
  }

  /** An appearance or inventory chunk. */
  function OnBlob(s: State, p: PeerId, kind: BlobKind, datagram: seq<Byte>, t: real, o: Oracle): Effect
    requires p in s.clients && AsmOk(AsmTable(s, kind))
  {
    var (b, ok) := AllowRate(s.rates.blob, p, t, 64);
    var s1 := s.(rates := s.rates.(blob := b));
    if ok then TakeChunk(s1, p, kind, datagram, o) else Quiet(s1)
  }

  function OnChat(s: State, p: PeerId, text: string, t: real, o: Oracle): Effect {
    var (b, ok) := AllowRate(s.rates.chat, p, t, 4);
    var s1 := s.(rates := s.rates.(chat := b));
    if ok then Effect(s1, Broadcast(s1, ToOthers(p, Chat(p, text)), o), []) else Quiet(s1)
  }

  function OnHit(s: State, p: PeerId, m: InMsg, t: real, o: Oracle): Effect
    requires m.InHit?
  {
    if !s.cfg.pvp then Quiet(s)
    else
      var (b, ok) := AllowRate(s.rates.hit, p, t, 24);
      var s1 := s.(rates := s.rates.(hit := b));
      var damage := ClampHitDamage(m.damage);
      if !ok || m.attacker != p || m.target == 0 || m.target == m.attacker || damage <= 0.0 then Quiet(s1)
      else Effect(s1, Broadcast(s1, ToOne(m.target, Hit(p, m.target, damage, m.hitFlags)), o), [])
  }

  /** A message only the host may send, relayed to its target. */
  function FromHost(s: State, p: PeerId, target: PeerId, m: OutMsg, o: Oracle): Effect {
    if p == s.world.hostPeerId then Effect(s, Broadcast(s, ToOne(target, m), o), []) else Quiet(s)
  }

  /** The messages of a live client that touch no table: world data, heartbeats, relays. */
  function Relay(s: State, p: PeerId, m: InMsg, t: real, o: Oracle): Effect
    requires p in s.clients
  {
    match m
    case InWorldSnapshot(_, _, _, _) => Quiet(HostSnapshot(s, p, m))
    case InHeartbeat(stamp) => Effect(s, SendTcp(s.clients[p], p, Heartbeat(p, stamp)), [])
    case InChat(text) => OnChat(s, p, text, t, o)
    case InKick(target, reason) => FromHost(s, p, target, Kick(target, reason), o)
    case InTeleport(target, place) => FromHost(s, p, target, Teleport(target, place), o)
    case InHit(_, _, _, _) => OnHit(s, p, m, t, o)
    case _ => Quiet(s)
  }

  /** `handle_tcp_message` with the removals it requests. */
  function HandleTcp(s: State, p: PeerId, m: InMsg, t: real, o: Oracle): Effect
    requires p in s.clients && AsmOk(s.appearAsm) && AsmOk(s.invAsm)
  {
    if m.BadHeader? || IsUdpOnly(m) then Quiet(s)
    else
      var s1 := Touch(s, p, t);
      if m.InBye? then RemoveClient(s1, p, true, o)
      else if m.InHello? then HelloAgain(s1, p)
      else if m.InBlob? then OnBlob(s1, p, m.kind, m.datagram, t, o)
      else Relay(s1, p, m, t, o)
  }

  // ---------------------------------------------------------------- UDP

  /** A UdpBind carrying the client's current token. */
  function OnUdpBind(s: State, p: PeerId, token: Word32, from: Addr, t: real, o: Oracle): Effect {
    if p !in s.clients || s.clients[p].udpToken == 0 || s.clients[p].udpToken != token then Quiet(s)
    else
      var s1 := UnbindUdp(s, p);
      var s2 := s1.(clients := s1.clients[p := s1.clients[p].(udpAddr := from, udpBound := true, lastSeen := t)],
                    udpIndex := s1.udpIndex[from := p]);
      Effect(s2, Broadcast(s2, PosesOfOthers(p), o), [])
  }

  /** `find_by_udp`: the indexed client; a stale entry is erased. */
  function FindByUdp(s: State, from: Addr): (State, Option<PeerId>) {
    if from !in s.udpIndex then (s, None)
    else if s.udpIndex[from] in s.clients then (s, Some(s.udpIndex[from]))
    else (s.(udpIndex := s.udpIndex - {from}), None)
  }

  /** The client, its record and, for the host, the world take over a pose. */
  function TakePose(s: State, p: PeerId, pose: Pose): State
    requires p in s.clients
  {
    var c := s.clients[p];
    var rec := RecOf(s.players, c.key).(key := c.key, havePose := true, place := pose.place, yaw := pose.yaw);
    var s1 := s.(clients := s.clients[p := c.(posesIn := c.posesIn + 1, lastPose := pose, havePose := true)],
                 players := s.players[c.key := rec],
                 dirty := s.dirty + {c.key});
    var w := s1.world;
    if p != w.hostPeerId then s1
    else s1.(world := w.(host := pose.place.(location := if pose.place.location != 0 then pose.place.location else w.host.location)),
             worldDirty := true)
  }

  /** A pose from a bound client. */
  function OnPose(s: State, p: PeerId, raw: Pose, t: real, o: Oracle): Effect
    requires p in s.clients
  {
    var (b, ok) := AllowRate(s.rates.pose, p, t, 30);
    var s1 := s.(rates := s.rates.(pose := b));
    if !ok then Quiet(s1)
    else
      var pose := raw.(peerId := p);
      var s2 := TakePose(s1, p, pose);
      Effect(s2, Broadcast(s2, PoseToInterested(p, pose), o), [])
  }

  /** A pose or an actor pose from a bound client. */
  function OnBound(s: State, p: PeerId, m: InMsg, t: real, o: Oracle): Effect
    requires p in s.clients
  {
    var s1 := Touch(s, p, t);
    if m.InPlayerPose? then OnPose(s1, p, m.pose, t, o)
    else if m.InActorPose? && p == s1.world.hostPeerId then Effect(s1, Broadcast(s1, ActorToInterested(p, m.actor), o), [])
    else Quiet(s1)
  }

  /** `handle_udp_packet`. */
  function HandleUdp(s: State, from: Addr, m: InMsg, t: real, o: Oracle): Effect {
    if !IsUdpOnly(m) then Quiet(s)
    else if m.InUdpBind? then OnUdpBind(s, m.peer, m.token, from, t, o)
    else
      var (s1, who) := FindByUdp(s, from);
      if who.None? then Quiet(s1) else OnBound(s1, who.value, m, t, o)
  }

  // ---------------------------------------------------------------- the step function

  datatype Event =
    | Net(ev: NetEvent)
    | PendingTimeout(connId: ConnId)
    | ClientTimeout(peerId: PeerId)
    | PersistTick
    | HeartbeatTick
    | Kicked(victim: PeerId, ban: bool)
    | Say(text: string)
    | Save
    | SetMaxPlayers(n: int)
    | Reload(cfg: Config, modHash: nat)
    | SetPvp(on: bool)
    | SetPassword(password: string)
    | SetMotd(motd: string)
    | Ban(key: Key)
    | Unban(key: Key)

  datatype Step = Step(event: Event, t: real, o: Oracle)

  function ClipPassword(pw: string): string { if |pw| > 15 then pw[..15] else pw }

  function Max(a: int, b: int): int { if a < b then b else a }

  /** `TcpClosed`: the pending entry goes; the client named by the event, or found by the
      connection, is removed. */
  ghost function OnClosed(s: State, conn: ConnId, peer: PeerId, o: Oracle): Effect {
    var s1 := s.(pending := Without(s.pending, conn));
    if peer != 0 then RemoveClient(s1, peer, false, o)
    else
      var owner := OwnerOf(s1.clients, conn);
      if owner.None? then Quiet(s1)
      else RemoveClient(s1.(clients := s1.clients[owner.value := s1.clients[owner.value].(connId := 0)]), owner.value, false, o)
  }

  /** `TcpFrame`: dispatch by the tagged peer, then by pending connection, then by owner. */
  ghost function OnFrame(s: State, conn: ConnId, peer: PeerId, m: InMsg, t: real, o: Oracle): Effect
    requires AsmOk(s.appearAsm) && AsmOk(s.invAsm)
  {
    if peer != 0 && peer in s.clients then HandleTcp(s, peer, m, t, o)
    else
      var i := FindPending(s.pending, conn);
      if i >= 0 then HandlePending(s, s.pending[i], m, t, o)
      else
        var owner := OwnerOf(s.clients, conn);
        if owner.Some? then HandleTcp(s, owner.value, m, t, o) else Quiet(s)
  }

  /** `apply_inbound`. */
  ghost function ApplyNet(s: State, ev: NetEvent, t: real, o: Oracle): Effect
    requires AsmOk(s.appearAsm) && AsmOk(s.invAsm)
  {
    match ev
    case TcpAccept(conn, addr) => Quiet(s.(pending := s.pending + [PendingTcp(conn, addr, t)]))
    case TcpFrame(conn, peer, m) => OnFrame(s, conn, peer, m, t, o)
    case TcpClosed(conn, peer) => OnClosed(s, conn, peer, o)
    case UdpDatagram(from, m) => HandleUdp(s, from, m, t, o)
  }

  function Announce(s: State, o: Oracle): Effect {
    Effect(s, Broadcast(s, ToAll(SessionRules(SessionFlags(s.cfg))), o), [])
  }

  function SetBans(s: State, banned: set<Key>): Effect {
    Effect(s.(banned := banned), [], [Job(None, map[], Some(banned))])
  }

  function SaveAll(s: State): Effect {
    var (s1, jobs) := Flush(s.(dirty := s.dirty + (set p | p in s.clients :: s.clients[p].key), worldDirty := true));
    Effect(s1, [], jobs)
  }

  /** Ticks and admin commands that remove nobody. */
  function ApplyIdle(s: State, e: Event, o: Oracle): Effect {
    match e
    case PersistTick => var (s1, jobs) := Flush(s); Effect(s1, [], jobs)
    case HeartbeatTick => Effect(s, Broadcast(s, ToAll(Heartbeat(0, 0)), o), [])
    case Say(text) => Effect(s, Broadcast(s, ToAll(Chat(0, text)), o), [])
    case Save => SaveAll(s)
    case SetMaxPlayers(n) => Quiet(s.(cfg := s.cfg.(maxPlayers := Max(1, n))))
    case Reload(cfg, modHash) =>
      Announce(s.(cfg := cfg.(password := ClipPassword(cfg.password)), modHash := if modHash != 0 then modHash else s.modHash), o)
    case SetPvp(on) => Announce(s.(cfg := s.cfg.(pvp := on)), o)
    case SetPassword(pw) => Announce(s.(cfg := s.cfg.(password := ClipPassword(pw))), o)
    case SetMotd(motd) => Quiet(s.(cfg := s.cfg.(motd := motd)))
    case Ban(key) => SetBans(s, s.banned + {SanitizeKey(key)})
    case Unban(key) => SetBans(s, s.banned - {SanitizeKey(key)})
    case _ => Quiet(s)
  }

  ghost function Apply(s: State, step: Step): Effect
    requires AsmOk(s.appearAsm) && AsmOk(s.invAsm)
  {
    match step.event
    case Net(ev) => ApplyNet(s, ev, step.t, step.o)
    case PendingTimeout(conn) =>
      Effect(s.(pending := Without(s.pending, conn)), if conn != 0 then [CloseConn(conn)] else [], [])
    case ClientTimeout(p) => RemoveClient(s, p, false, step.o)
    case Kicked(victim, ban) => AdminKick(s, victim, ban, step.o)
    case _ => ApplyIdle(s, step.event, step.o)
  }
}
