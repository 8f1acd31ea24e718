/** What a client that joins is told of the others: their looks and what they carry, whole and
    in order. */
module Looks {
  import opened Bytes
  import opened Blobs
  import opened RateLimit
  import opened Types
  import opened Session
  import opened SessionInv
  import opened Ownership
  import opened SessionFacts
  import opened Admission
  import opened Messages
  import opened Posts

  /** The packets of client `q` among the commands. */
  function PacketsFrom(cmds: seq<Cmd>, q: PeerId): seq<Cmd> {
    if cmds == [] then []
    else
      var last := cmds[|cmds| - 1];
      PacketsFrom(cmds[..|cmds| - 1], q) + if last.TcpSend? && last.msg.BlobPacket? && last.msg.from == q then [last] else []
  }

  lemma {:induction false} FromConcat(a: seq<Cmd>, b: seq<Cmd>, q: PeerId)
    ensures PacketsFrom(a + b, q) == PacketsFrom(a, q) + PacketsFrom(b, q)
    decreases |b|
  {
    if b == [] {
      assert a + b == a;
    } else {
      assert (a + b)[..|a + b| - 1] == a + b[..|b| - 1];
      FromConcat(a, b[..|b| - 1], q);
    }
  }

  /** A blob of `q` on its way to `p`: nothing for no blob, else every chunk in order, under
      the type byte of its kind. */
  function Parcel(conn: ConnId, p: PeerId, kind: BlobKind, q: PeerId, blob: seq<Byte>): seq<Cmd> {
    var ps := if blob == [] then [] else Packets(if kind.Appearance? then 7 else 8, q % 0x1_0000_0000, blob);
    seq(|ps|, i requires 0 <= i < |ps| => TcpSend(conn, p, BlobPacket(kind, q, ps[i])))
  }

  /** Commands that are all packets of `q` for `p`. */
  ghost predicate AllFrom(cmds: seq<Cmd>, conn: ConnId, p: PeerId, q: PeerId) {
    forall i :: 0 <= i < |cmds| ==> cmds[i].TcpSend? && cmds[i].connId == conn && cmds[i].peerId == p && cmds[i].msg.BlobPacket? && cmds[i].msg.from == q
  }

  lemma {:induction false} FromItself(cmds: seq<Cmd>, conn: ConnId, p: PeerId, q: PeerId, r: PeerId)
    requires AllFrom(cmds, conn, p, q)
    ensures PacketsFrom(cmds, r) == if r == q then cmds else []
  {
    if cmds != [] {
      FromItself(cmds[..|cmds| - 1], conn, p, q, r);
    }
  }

  lemma {:induction false} SentInOrder(c: Client, p: PeerId, kind: BlobKind, q: PeerId, ps: seq<seq<Byte>>)
    requires c.connId != 0
    ensures SendPackets(c, p, kind, q, ps) == seq(|ps|, i requires 0 <= i < |ps| => TcpSend(c.connId, p, BlobPacket(kind, q, ps[i])))
  {
    if ps != [] {
      SentInOrder(c, p, kind, q, ps[..|ps| - 1]);
    }
  }

  lemma ParcelSent(c: Client, p: PeerId, kind: BlobKind, q: PeerId, blob: seq<Byte>)
    requires c.connId != 0
    ensures (if blob != [] then SendBlob(c, p, kind, q, blob) else []) == Parcel(c.connId, p, kind, q, blob)
    ensures AllFrom(Parcel(c.connId, p, kind, q, blob), c.connId, p, q)
  {
    hide Packets;
    if blob != [] {
      SentInOrder(c, p, kind, q, Packets(if kind.Appearance? then 7 else 8, q % 0x1_0000_0000, blob));
    }
  }

  function Parcels(cs: map<PeerId, Client>, p: PeerId, q: PeerId): seq<Cmd>
    requires p in cs && q in cs
  {
    Parcel(cs[p].connId, p, Appearance, q, cs[q].appearance) + Parcel(cs[p].connId, p, Inventory, q, cs[q].inventory)
  }

  lemma VisitParcels(cs: map<PeerId, Client>, u: real, p: PeerId, q: PeerId)
    requires Faces(cs) && p in cs && cs[p].connId != 0 && !cs[p].udpBound
    ensures Visit(cs, u, CatchUp(p), q) == if q in cs && q != p then Parcels(cs, p, q) else []
    ensures AllFrom(Visit(cs, u, CatchUp(p), q), cs[p].connId, p, q)
  {
    hide Parcel, SendBlob;
    if q in cs {
      ParcelSent(cs[p], p, Appearance, q, cs[q].appearance);
      ParcelSent(cs[p], p, Inventory, q, cs[q].inventory);
    }
  }

  lemma {:induction false} ParcelsSent(cs: map<PeerId, Client>, u: real, p: PeerId, order: seq<PeerId>, q: PeerId)
    requires Faces(cs) && p in cs && cs[p].connId != 0 && !cs[p].udpBound && q in cs && q != p
    requires forall i, j :: 0 <= i < j < |order| ==> order[i] != order[j]
    ensures PacketsFrom(FanOut(cs, u, CatchUp(p), order), q) == if q in order then Parcels(cs, p, q) else []
    ensures forall i :: 0 <= i < |FanOut(cs, u, CatchUp(p), order)| ==>
              var x := FanOut(cs, u, CatchUp(p), order)[i]; x.TcpSend? && x.connId == cs[p].connId && x.peerId == p && x.msg.BlobPacket?
  {
    hide Visit, Parcels, Faces, PacketsFrom;
    if order == [] {
      FromItself([], 0, p, q, q);
    } else {
      var n := |order| - 1;
      var front, v := order[..n], order[n];
      ParcelsSent(cs, u, p, front, q);
      VisitParcels(cs, u, p, v);
      var more := Visit(cs, u, CatchUp(p), v);
      FromConcat(FanOut(cs, u, CatchUp(p), front), more, q);
      FromItself(more, cs[p].connId, p, v, q);
      assert order == front + [v];
      assert v !in front;
    }
  }

  /** The clients after the Hello: the one that joined, on its new connection and without a UDP
      address, and the others as they were. */
  lemma JoinedTables(s: State, conn: ConnId, peer: PeerId, i: nat, h: Hello, t: real, o: Oracle)
    requires Inv(s) && LetIn(s, conn, peer, i, h, t)
    ensures var s', p := PostOf(s, Said(conn, peer, InHello(h), t, o)), Joined(s, h);
            && p in s'.clients && s'.clients[p].connId == conn && !s'.clients[p].udpBound && Faces(s'.clients) && s'.cfg == s.cfg
            && forall q :: q in s.clients && q != p ==> q in s'.clients && s'.clients[q] == s.clients[q]
  {
    hide Inv, AllowRate, SanitizeKey, Admissible, LetIn, Enrolled, HostsWorld, PostOf, NextToken;
    FacesOf(s);
    var same := ByKey(s.clients, SanitizeKey(h.playerKey));
    if same.Some? {
      BackPost(s, conn, peer, i, h, t, o, same.value);
    } else {
      NewPost(s, conn, peer, i, h, t, o);
    }
  }

  lemma JoinedOther(s: State, h: Hello, q: PeerId)
    requires Inv(s) && q in s.clients && !HasKey(s.clients, q, SanitizeKey(h.playerKey))
    ensures q != Joined(s, h)
  {
    hide SanitizeKey;
  }

  lemma EverybodyVisited(s: State, step: Step, q: PeerId)
    requires ValidOrder(step.o.order, Visited(s, step)) && q in s.clients
    ensures q in step.o.order && forall i, j :: 0 <= i < j < |step.o.order| ==> step.o.order[i] != step.o.order[j]
  {
    hide Welcomes;
  }

  lemma ConnOfStranger(s: State, conn: ConnId, peer: PeerId, i: nat)
    requires Inv(s) && Stranger(s, conn, peer, i)
    ensures conn != 0
  {
    StrangerFound(s, conn, peer, i);
  }

  /** What a client that is let in is told of each other client: all it looks like, then all
      it carries, chunk by chunk, and nothing if there is none; and it is told nothing else. */
  lemma LooksExact(s: State, conn: ConnId, peer: PeerId, i: nat, h: Hello, t: real, o: Oracle, q: PeerId) returns (looks: seq<Cmd>)
    requires Inv(s) && LetIn(s, conn, peer, i, h, t) && ValidOrder(o.order, Visited(s, Said(conn, peer, InHello(h), t, o)))
    requires q in s.clients && !HasKey(s.clients, q, SanitizeKey(h.playerKey))
    ensures From(CmdsAt(s, Said(conn, peer, InHello(h), t, o)), |BindingCmds(s, conn, h)| + 2, looks)
    ensures OnlyLooks(looks, conn, Joined(s, h))
    ensures PacketsFrom(looks, q)
         == Parcel(conn, Joined(s, h), Appearance, q, s.clients[q].appearance) + Parcel(conn, Joined(s, h), Inventory, q, s.clients[q].inventory)
  {
    hide Inv, Apply, Admissible, AllowRate, SanitizeKey, Parcel, PacketsFrom, FanOut, HasKey, ValidOrder, BindingCmds, Visited, Faces, Stranger, Joined, RecOf;
    looks := HelloWelcomed(s, conn, peer, i, h, t, o);
    var p := Joined(s, h);
    InvAsm(s);
    var e := Apply(s, Said(conn, peer, InHello(h), t, o));
    ConnOfStranger(s, conn, peer, i);
    JoinedTables(s, conn, peer, i, h, t, o);
    JoinedOther(s, h, q);
    EverybodyVisited(s, Said(conn, peer, InHello(h), t, o), q);
    ParcelsSent(e.state.clients, s.cfg.interestUu, p, o.order, q);
    Behind(e.cmds, BindingCmds(s, conn, h), looks);
  }

  ghost function CmdsAt(s: State, step: Step): seq<Cmd>
    requires Inv(s)
  {
    InvAsm(s);
    Apply(s, step).cmds
  }

  ghost predicate From(cmds: seq<Cmd>, n: nat, rest: seq<Cmd>) { n <= |cmds| && cmds[n..] == rest }

  ghost predicate OnlyLooks(cmds: seq<Cmd>, conn: ConnId, p: PeerId) {
    forall k :: 0 <= k < |cmds| ==> cmds[k].TcpSend? && cmds[k].connId == conn && cmds[k].peerId == p && cmds[k].msg.BlobPacket?
  }

  lemma Behind(cmds: seq<Cmd>, before: seq<Cmd>, rest: seq<Cmd>)
    requires |cmds| >= |before| + 2 && cmds == before + [cmds[|before|]] + [cmds[|before| + 1]] + rest
    ensures cmds[|before| + 2..] == rest
  {
  }
}
