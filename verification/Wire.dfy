/** The twelve-byte message header and the checks made on it. */
module Wire {
  import opened Bytes

  const MAGIC: seq<Byte> := [67, 77, 80, 49] // "CMP1"
  const PROTOCOL_VERSION: Byte := 12
  const HEADER_SIZE := 12
  const MAX_TCP_FRAME := 65535
  const MAX_DATAGRAM := 512
  const BLOB_HEADER_SIZE := 24
  const BLOB_PAYLOAD_MAX := MAX_DATAGRAM - BLOB_HEADER_SIZE

  const HELLO: Byte := 1
  const WELCOME: Byte := 2
  const PLAYER_POSE: Byte := 3
  const BYE: Byte := 4
  const REJECT: Byte := 5
  const WORLD_SNAPSHOT: Byte := 6
  const APPEARANCE_CHUNK: Byte := 7
  const INVENTORY_CHUNK: Byte := 8
  const SESSION_QUERY: Byte := 9
  const SESSION_INFO: Byte := 10
  const ACTOR_POSE: Byte := 11
  const HIT: Byte := 12
  const CHAT: Byte := 13
  const KICK: Byte := 14
  const HEARTBEAT: Byte := 15
  const TELEPORT: Byte := 16
  const SESSION_RULES: Byte := 17
  const UDP_BIND: Byte := 18

  /** A header as `fill_header` writes it, with the size field given. */
  function FillHeader(kind: Byte, size: Word16): (r: seq<Byte>)
    ensures |r| == HEADER_SIZE
  {
    MAGIC + [kind, PROTOCOL_VERSION] + Le16(size) + [0, 0, 0, 0]
  }

  function HeaderMagic(s: seq<Byte>): seq<Byte>
    requires |s| >= HEADER_SIZE
  {
    s[..4]
  }

  function HeaderKind(s: seq<Byte>): Byte
    requires |s| >= HEADER_SIZE
  {
    s[4]
  }

  function HeaderSize(s: seq<Byte>): Word16
    requires |s| >= HEADER_SIZE
  {
    FromLe16(s, 6)
  }

  predicate ExpectedSize(kind: Byte, size: Word16) {
    if kind == HELLO then size == 135
    else if kind == WELCOME then size == 30
    else if kind == PLAYER_POSE then size == 56
    else if kind == BYE then size == 16
    else if kind == REJECT then size == 112
    else if kind == WORLD_SNAPSHOT then size == 64
    else if kind == APPEARANCE_CHUNK || kind == INVENTORY_CHUNK then size >= BLOB_HEADER_SIZE
    else if kind == SESSION_QUERY then size == 20
    else if kind == SESSION_INFO then size == 142
    else if kind == ACTOR_POSE then size == 64
    else if kind == HIT then size == 28
    else if kind == CHAT || kind == KICK then size == 96
    else if kind == HEARTBEAT then size == 20
    else if kind == TELEPORT then size == 32
    else if kind == SESSION_RULES then size == 16
    else if kind == UDP_BIND then size == 20
    else false
  }

  /** `header_ok`: the header of a received message of `nbytes` bytes. */
  predicate HeaderOk(s: seq<Byte>, nbytes: nat)
    requires |s| >= HEADER_SIZE
  {
    && HeaderMagic(s) == MAGIC
    && HEADER_SIZE <= HeaderSize(s) <= nbytes
    && ExpectedSize(HeaderKind(s), HeaderSize(s))
  }

  /** A frame the stream layer can carry: right magic, and a size field equal to its length. */
  ghost predicate WellFormedFrame(f: seq<Byte>) {
    && |f| >= HEADER_SIZE
    && HeaderMagic(f) == MAGIC
    && HeaderSize(f) == |f|
  }

  /** What can be read back from any message that starts with a filled header. */
  lemma FillHeaderFields(kind: Byte, size: Word16, rest: seq<Byte>)
    ensures var s := FillHeader(kind, size) + rest;
            HeaderMagic(s) == MAGIC && HeaderKind(s) == kind && HeaderSize(s) == size
  {
    var s := FillHeader(kind, size) + rest;
    assert s[..4] == MAGIC;
    assert s[6..8] == Le16(size);
    FromLe16At(s, 6, size);
  }
}
