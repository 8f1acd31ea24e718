/** Ticks and admin commands in plain terms: what each changes, says and saves. */
module Admin {
  import opened Bytes
  import opened Blobs
  import opened RateLimit
  import opened Types
  import opened Session
  import opened SessionInv
  import opened Ownership
  import opened SessionFacts
  import opened Messages
  import opened Posts

  ghost function EffectOf(s: State, e: Event, t: real, o: Oracle): Effect
    requires Inv(s)
  {
    InvAsm(s);
    Apply(s, Step(e, t, o))
  }

  // ---------------------------------------------------------------- player keys

  predicate KeyClean(key: string) {
    forall i :: 0 <= i < |key| ==> 'a' <= key[i] <= 'z' || 'A' <= key[i] <= 'Z' || '0' <= key[i] <= '9' || key[i] == '-' || key[i] == '_'
  }

  lemma {:induction false} KeptChars(raw: string)
    ensures KeyClean(KeepKeyChars(raw)) && (KeyClean(raw) ==> KeepKeyChars(raw) == raw)
    ensures |KeepKeyChars(raw)| <= |raw|
  {
    if raw != [] {
      KeptChars(raw[..|raw| - 1]);
    }
  }

  lemma {:induction false} CharsApart(a: string, b: string)
    ensures KeepKeyChars(a + b) == KeepKeyChars(a) + KeepKeyChars(b)
    decreases |b|
  {
    if b == [] {
      assert a + b == a;
    } else {
      assert (a + b)[..|a + b| - 1] == a + b[..|b| - 1];
      CharsApart(a, b[..|b| - 1]);
    }
  }

  /** A key is 1 to 31 letters, digits, dashes and underscores; one that is, is kept as it is,
      characters that are none are left out, and a key of none is "player". */
  lemma KeyShape(raw: string)
    ensures var k := SanitizeKey(raw); KeyClean(k) && 1 <= |k| <= 31 && SanitizeKey(k) == k
    ensures KeyClean(raw) && 1 <= |raw| <= 31 ==> SanitizeKey(raw) == raw
    ensures KeepKeyChars(raw) == [] ==> SanitizeKey(raw) == "player"
    ensures KeepKeyChars(raw) != [] ==> SanitizeKey(raw) <= KeepKeyChars(raw) && (|KeepKeyChars(raw)| <= 31 ==> SanitizeKey(raw) == KeepKeyChars(raw))
    ensures KeepKeyChars(raw) == [] <==> forall i :: 0 <= i < |raw| ==> !KeyClean([raw[i]])
  {
    hide KeepKeyChars;
    KeptChars(raw);
    KeptChars(SanitizeKey(raw));
    NoneKept(raw);
  }

  lemma {:induction false} NoneKept(raw: string)
    ensures KeepKeyChars(raw) == [] <==> forall i :: 0 <= i < |raw| ==> !KeyClean([raw[i]])
  {
    if raw != [] {
      var n := |raw| - 1;
      NoneKept(raw[..n]);
      assert KeyClean([raw[n]]) <==> KeyChar(raw[n]) by { assert [raw[n]][0] == raw[n]; }
      assert forall i :: 0 <= i < n ==> raw[..n][i] == raw[i];
    }
  }

  /** Tokens are never 0 and never repeat the one before. */
  lemma TokenFresh(seed: Word32)
    ensures NextToken(seed) != seed && NextToken(seed) != 0
    ensures var v := (1664525 * seed as int + 1013904223) % 0x1_0000_0000; NextToken(seed) == if v == 0 then 1 else v
  {
    var n := seed as int;
    var v := (1664525 * n + 1013904223) % 0x1_0000_0000;
    var q := (1664525 * n + 1013904223) / 0x1_0000_0000;
    assert 1664525 * n + 1013904223 == 0x1_0000_0000 * q + v;
    assert v % 2 == (n + 1) % 2;
    assert n == 1 ==> v == 1015568748;
  }

  // ---------------------------------------------------------------- settings

  lemma SetMax(s: State, n: int, t: real, o: Oracle)
    requires Inv(s)
    ensures EffectOf(s, SetMaxPlayers(n), t, o) == Effect(s.(cfg := s.cfg.(maxPlayers := if n < 1 then 1 else n)), [], [])
  {
    hide Inv;
  }

  lemma SetMessage(s: State, motd: string, t: real, o: Oracle)
    requires Inv(s)
    ensures EffectOf(s, SetMotd(motd), t, o) == Effect(s.(cfg := s.cfg.(motd := motd)), [], [])
  {
    hide Inv;
  }

  /** The rules as every client is told them once: 1 for hits allowed, 2 for a password. */
  ghost predicate RulesTold(s: State, cmds: seq<Cmd>, pvp: bool, password: string) {
    OneCopyEach(s, cmds, 0, SessionRules((if pvp then 1 else 0) + (if password != "" then 2 else 0)))
  }

  lemma Announced(s: State, cfg: Config, modHash: nat, o: Oracle)
    requires Inv(s) && ValidOrder(o.order, s.clients.Keys)
    ensures RulesTold(s, Announce(s.(cfg := cfg, modHash := modHash), o).cmds, cfg.pvp, cfg.password)
  {
    hide Inv, Broadcast, ValidOrder;
    var s1 := s.(cfg := cfg, modHash := modHash);
    InvFrame(s, s1);
    AllOnce(s1, SessionRules(SessionFlags(cfg)), o);
    SameCopies(s, s1, Broadcast(s1, ToAll(SessionRules(SessionFlags(cfg))), o), SessionRules(SessionFlags(cfg)));
  }

  lemma SameCopies(s: State, s1: State, cmds: seq<Cmd>, m: OutMsg)
    requires s1.clients == s.clients && OneCopyEach(s1, cmds, 0, m)
    ensures OneCopyEach(s, cmds, 0, m)
  {
    hide Count;
  }

  lemma PvpSet(s: State, on: bool, t: real, o: Oracle)
    requires Inv(s) && ValidOrder(o.order, s.clients.Keys)
    ensures var e := EffectOf(s, SetPvp(on), t, o);
            e.state == s.(cfg := s.cfg.(pvp := on)) && e.jobs == [] && RulesTold(s, e.cmds, on, s.cfg.password)
  {
    hide Inv, Broadcast, RulesTold, ValidOrder;
    Announced(s, s.cfg.(pvp := on), s.modHash, o);
  }

  lemma PasswordSet(s: State, pw: string, t: real, o: Oracle)
    requires Inv(s) && ValidOrder(o.order, s.clients.Keys)
    ensures var e, clipped := EffectOf(s, SetPassword(pw), t, o), if |pw| > 15 then pw[..15] else pw;
            e.state == s.(cfg := s.cfg.(password := clipped)) && e.jobs == [] && RulesTold(s, e.cmds, s.cfg.pvp, clipped)
  {
    hide Inv, Broadcast, RulesTold, ValidOrder;
    Announced(s, s.cfg.(password := ClipPassword(pw)), s.modHash, o);
  }

  lemma Reloaded(s: State, cfg: Config, modHash: nat, t: real, o: Oracle)
    requires Inv(s) && ValidOrder(o.order, s.clients.Keys)
    ensures var e, clipped := EffectOf(s, Reload(cfg, modHash), t, o), if |cfg.password| > 15 then cfg.password[..15] else cfg.password;
            && e.state == s.(cfg := cfg.(password := clipped), modHash := if modHash != 0 then modHash else s.modHash)
            && e.jobs == [] && RulesTold(s, e.cmds, cfg.pvp, clipped)
  {
    hide Inv, Broadcast, RulesTold, ValidOrder;
    Announced(s, cfg.(password := ClipPassword(cfg.password)), if modHash != 0 then modHash else s.modHash, o);
  }

  // ---------------------------------------------------------------- bans and lines

  lemma Banished(s: State, key: Key, t: real, o: Oracle)
    requires Inv(s)
    ensures var banned := s.banned + {SanitizeKey(key)};
            EffectOf(s, Ban(key), t, o) == Effect(s.(banned := banned), [], [Job(None, map[], Some(banned))])
    ensures var banned := s.banned - {SanitizeKey(key)};
            EffectOf(s, Unban(key), t, o) == Effect(s.(banned := banned), [], [Job(None, map[], Some(banned))])
  {
    hide Inv, SanitizeKey;
  }

  /** A line or a heartbeat of the server goes to every client once, in nobody's name. */
  lemma ServerSays(s: State, text: string, t: real, o: Oracle)
    requires Inv(s) && ValidOrder(o.order, s.clients.Keys)
    ensures var e := EffectOf(s, Say(text), t, o); e.state == s && e.jobs == [] && OneCopyEach(s, e.cmds, 0, Chat(0, text))
    ensures var e := EffectOf(s, HeartbeatTick, t, o); e.state == s && e.jobs == [] && OneCopyEach(s, e.cmds, 0, Heartbeat(0, 0))
  {
    hide Inv, Broadcast, OneCopyEach, ValidOrder;
    AllOnce(s, Chat(0, text), o);
    AllOnce(s, Heartbeat(0, 0), o);
  }

  // ---------------------------------------------------------------- saving

  /** The records to be saved, each as it is now. */
  ghost predicate Saves(s: State, keys: set<Key>, job: Job) {
    && job.bans.None?
    && (forall k :: k in job.players <==> k in keys && k in s.players)
    && (forall k :: k in job.players ==> job.players[k] == s.players[k])
  }

  /** The save tick: what is marked and nothing else, and no job when nothing is. */
  lemma Ticked(s: State, t: real, o: Oracle)
    requires Inv(s)
    ensures var e := EffectOf(s, PersistTick, t, o);
            && e.state == s.(dirty := {}, worldDirty := false) && e.cmds == []
            && (if !s.worldDirty && s.dirty !! s.players.Keys then e.jobs == []
                else |e.jobs| == 1 && Saves(s, s.dirty, e.jobs[0]) && e.jobs[0].world == if s.worldDirty then Some(s.world) else None)
  {
    hide Inv, Apply;
    InvAsm(s);
    TickIs(s, PersistTick, o);
    IdleApply(s, PersistTick, t, o);
    var snap := map k | k in s.dirty && k in s.players :: s.players[k];
    if s.dirty !! s.players.Keys { assert snap == map[]; } else {
      var k :| k in s.dirty && k in s.players;
      assert k in snap;
    }
  }

  lemma IdleApply(s: State, e: Event, t: real, o: Oracle)
    requires Inv(s) && (e.PersistTick? || e.Save?)
    ensures EffectOf(s, e, t, o) == ApplyIdle(s, e, o)
  {
    hide Inv, ApplyIdle;
  }

  /** The save command: the world, whatever is marked and the record of every live client. */
  lemma SavedAll(s: State, t: real, o: Oracle)
    requires Inv(s)
    ensures var e := EffectOf(s, Save, t, o);
            && e.state == s.(dirty := {}, worldDirty := false) && e.cmds == []
            && |e.jobs| == 1 && e.jobs[0].world == Some(s.world)
            && Saves(s, s.dirty + (set p | p in s.clients :: s.clients[p].key), e.jobs[0])
  {
    hide Inv, Apply;
    InvAsm(s);
    IdleApply(s, Save, t, o);
    SaveFrame(s);
  }

  // ---------------------------------------------------------------- first records

  /** The record of a key that was never seen: the game's start, no pose, nothing carried. */
  lemma FirstRecord(s: State, h: Hello)
    requires SanitizeKey(h.playerKey) !in s.players
    ensures Enrolled(s, h) == PlayerRec(SanitizeKey(h.playerKey), if h.name != "" then h.name else "player", false,
                                        Place(0x3C, -79348.0, 89752.0, 7936.0), 0.0, [], [])
  {
    hide SanitizeKey;
  }
}
