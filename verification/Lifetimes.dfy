/** Tokens and signs of life over whole runs. */
module Lifetimes {
  import opened Bytes
  import opened Types
  import opened Session
  import opened SessionInv
  import opened Ownership
  import opened SessionFacts
  import opened Messages
  import opened Origins
  import opened Posts
  import opened Lives

  /** Client `q` at the end of the first `k` steps of a run. */
  ghost predicate LiveAt(s: State, steps: seq<Step>, k: nat, q: PeerId)
    requires k <= |steps|
  {
    Run(s, steps[..k]) && q in After(s, steps[..k]).clients
  }

  lemma LiveIsKnown(s: State, q: PeerId)
    requires Inv(s) && q in s.clients
    ensures q < s.nextPeer
  {
  }

  lemma {:induction false} PeerIdsGrow(s: State, steps: seq<Step>, k: nat)
    requires Run(s, steps) && k <= |steps|
    ensures (RunPrefix(s, steps, k); After(s, steps[..k]).nextPeer <= After(s, steps).nextPeer)
    decreases |steps|
  {
    hide Inv, Enabled, Apply, ChangeOf;
    RunPrefix(s, steps, k);
    if k == |steps| {
      assert steps[..k] == steps;
    } else {
      var n := |steps| - 1;
      assert steps[..n][..k] == steps[..k];
      PeerIdsGrow(s, steps[..n], k);
      var before := After(s, steps[..n]);
      InvAsm(before);
      StepNextPeer(before, steps[n]);
    }
  }

  /** A client that is live at two moments of a run is live between them. */
  lemma LiveBetween(s: State, steps: seq<Step>, j: nat, k: nat, q: PeerId)
    requires Run(s, steps) && j <= k <= |steps| && LiveAt(s, steps, j, q) && LiveAt(s, steps, |steps|, q)
    ensures LiveAt(s, steps, k, q)
  {
    hide Inv, Enabled, Apply;
    assert steps[..|steps|] == steps;
    RunPrefix(s, steps, k);
    RunPrefix(s, steps, j);
    assert steps[..k][..j] == steps[..j];
    LiveIsKnown(After(s, steps[..j]), q);
    PeerIdsGrow(s, steps[..k], j);
    if !LiveAt(s, steps, k, q) {
      GoneForGood(s, steps, k, q);
    }
  }

  /** A run without its last step, and a client that is live at `j` and at the end. */
  lemma LastLive(s: State, steps: seq<Step>, j: nat, q: PeerId)
    requires Run(s, steps) && j < |steps| && LiveAt(s, steps, j, q) && LiveAt(s, steps, |steps|, q)
    ensures var n := |steps| - 1; Run(s, steps[..n]) && LiveAt(s, steps[..n], j, q) && LiveAt(s, steps[..n], n, q)
    ensures steps[..|steps| - 1][..j] == steps[..j]
  {
    hide Inv, Enabled, Apply, LiveAt;
    var n := |steps| - 1;
    RunPrefix(s, steps, n);
    LiveBetween(s, steps, j, n, q);
    LiveMeans(s, steps, n, q);
    LiveMeans(s, steps, j, q);
    assert steps[..n][..j] == steps[..j];
    assert steps[..n][..n] == steps[..n];
    LiveMeans(s, steps[..n], j, q);
    LiveMeans(s, steps[..n], n, q);
  }

  lemma LastStep(s: State, steps: seq<Step>, q: PeerId) returns (before: State)
    requires Run(s, steps) && steps != []
    ensures Run(s, steps[..|steps| - 1]) && before == After(s, steps[..|steps| - 1])
    ensures Inv(before) && LivesOn(before, steps[|steps| - 1], q) && After(s, steps) == PostOf(before, steps[|steps| - 1])
  {
    hide Inv, Enabled, Apply, LivesOn;
    before := After(s, steps[..|steps| - 1]);
    StepLives(before, steps[|steps| - 1], q);
  }

  lemma LiveMeans(s: State, steps: seq<Step>, k: nat, q: PeerId)
    requires Run(s, steps) && k <= |steps|
    ensures Run(s, steps[..k]) && (LiveAt(s, steps, k, q) <==> q in After(s, steps[..k]).clients)
  {
    hide Inv, Enabled, Apply;
    RunPrefix(s, steps, k);
  }

  // ---------------------------------------------------------------- tokens

  /** Step `k` of a run sends client `q` a Welcome. */
  ghost predicate WelcomesAt(s: State, steps: seq<Step>, k: nat, q: PeerId)
    requires Run(s, steps) && k < |steps|
  {
    RunPrefix(s, steps, k);
    exists token :: Rewelcomed(After(s, steps[..k]), steps[k], q, token)
  }

  lemma WelcomesPrefix(s: State, steps: seq<Step>, n: nat, k: nat, q: PeerId)
    requires Run(s, steps) && k < n <= |steps|
    ensures Run(s, steps[..n]) && (WelcomesAt(s, steps[..n], k, q) <==> WelcomesAt(s, steps, k, q))
  {
    hide Inv, Enabled, Apply, Rewelcomed;
    RunPrefix(s, steps, n);
    RunPrefix(s, steps, k);
    assert steps[..n][..k] == steps[..k];
  }

  lemma {:induction false} TokenStands(s: State, steps: seq<Step>, j: nat, q: PeerId)
    requires Run(s, steps) && j <= |steps| && LiveAt(s, steps, j, q) && LiveAt(s, steps, |steps|, q)
    requires forall k :: j <= k < |steps| ==> !WelcomesAt(s, steps, k, q)
    ensures q in After(s, steps).clients && Run(s, steps[..j]) && q in After(s, steps[..j]).clients
    ensures After(s, steps).clients[q].udpToken == After(s, steps[..j]).clients[q].udpToken
    decreases |steps|
  {
    hide Inv, Enabled, Apply, LiveAt, WelcomesAt, SignOfLife, Rewelcomed;
    LiveMeans(s, steps, j, q);
    LiveMeans(s, steps, |steps|, q);
    assert steps[..|steps|] == steps;
    if j < |steps| {
      var n := |steps| - 1;
      LastLive(s, steps, j, q);
      LiveMeans(s, steps[..n], n, q);
      assert steps[..n][..n] == steps[..n];
      var before := LastStep(s, steps, q);
      forall k | j <= k < n ensures !WelcomesAt(s, steps[..n], k, q) { WelcomesPrefix(s, steps, n, k, q); }
      TokenStands(s, steps[..n], j, q);
      NotWelcomedHere(s, steps, q, After(s, steps).clients[q].udpToken);
    }
  }

  lemma NotWelcomedHere(s: State, steps: seq<Step>, q: PeerId, token: Word32)
    requires Run(s, steps) && steps != [] && !WelcomesAt(s, steps, |steps| - 1, q)
    ensures Run(s, steps[..|steps| - 1]) && !Rewelcomed(After(s, steps[..|steps| - 1]), steps[|steps| - 1], q, token)
  {
    hide Inv, Enabled, Apply, Rewelcomed;
    RunPrefix(s, steps, |steps| - 1);
  }

  /** A token that a Welcome announced at step `j` binds its client as long as the client
      stays and no later Welcome is sent to it, from whatever address the bind comes; no other
      token does anything. */
  lemma WelcomedCanBind(s: State, steps: seq<Step>, j: nat, i: nat, c: ConnId, q: PeerId, p: PeerId, isNew: bool, isHost: bool, flags: nat, token: Word32,
                        given: Word32, from: Addr, t: real, o: Oracle)
    requires Run(s, steps) && j < |steps|
    requires (RunPrefix(s, steps, j); Queues(After(s, steps[..j]), steps[j], i, c, q, Welcome(p, isNew, isHost, flags, token)))
    requires LiveAt(s, steps, |steps|, p) && forall k :: j < k < |steps| ==> !WelcomesAt(s, steps, k, p)
    ensures var s1 := After(s, steps); var s2 := PostOf(s1, Step(Net(UdpDatagram(from, InUdpBind(p, given))), t, o));
            if given != token then s2 == s1
            else p in s2.clients && s2.clients[p].udpBound && s2.clients[p].udpAddr == from && from in s2.udpIndex && s2.udpIndex[from] == p
  {
    hide Inv, Enabled, Apply, LiveAt, WelcomesAt, Queues, PostOf;
    RunPrefix(s, steps, j);
    WelcomeIsTrue(After(s, steps[..j]), steps[j], i, c, q, p, isNew, isHost, flags, token);
    StepIs(s, steps, j);
    LiveMeans(s, steps, j + 1, p);
    TokenStands(s, steps, j + 1, p);
    BindPost(After(s, steps), p, given, from, t, o);
  }

  lemma StepIs(s: State, steps: seq<Step>, j: nat)
    requires Run(s, steps) && j < |steps|
    ensures Run(s, steps[..j]) && Run(s, steps[..j + 1]) && After(s, steps[..j + 1]) == PostOf(After(s, steps[..j]), steps[j])
  {
    hide Inv, Enabled, Apply;
    RunPrefix(s, steps, j);
    AfterStep(s, steps, j);
  }

  // ---------------------------------------------------------------- signs of life

  ghost predicate SignAt(s: State, steps: seq<Step>, k: nat, q: PeerId)
    requires Run(s, steps) && k < |steps|
  {
    RunPrefix(s, steps, k);
    SignOfLife(After(s, steps[..k]), steps[k], q)
  }

  lemma SignPrefix(s: State, steps: seq<Step>, n: nat, k: nat, q: PeerId)
    requires Run(s, steps) && k < n <= |steps|
    ensures Run(s, steps[..n]) && (SignAt(s, steps[..n], k, q) <==> SignAt(s, steps, k, q))
  {
    hide Inv, Enabled, Apply, SignOfLife;
    RunPrefix(s, steps, n);
    RunPrefix(s, steps, k);
    assert steps[..n][..k] == steps[..k];
  }

  /** A client was last seen when it gave its last sign of life, no later and no earlier. */
  lemma {:induction false} LastSeenIs(s: State, steps: seq<Step>, j: nat, q: PeerId)
    requires Run(s, steps) && j < |steps| && LiveAt(s, steps, j, q) && LiveAt(s, steps, |steps|, q)
    requires SignAt(s, steps, j, q) && forall k :: j < k < |steps| ==> !SignAt(s, steps, k, q)
    ensures q in After(s, steps).clients && After(s, steps).clients[q].lastSeen == steps[j].t
    decreases |steps|
  {
    hide Inv, Enabled, Apply, LiveAt, SignAt, SignOfLife, Rewelcomed, PostOf;
    var n := |steps| - 1;
    LiveMeans(s, steps, |steps|, q);
    assert steps[..|steps|] == steps;
    LastLive(s, steps, j, q);
    LiveMeans(s, steps[..n], n, q);
    assert steps[..n][..n] == steps[..n];
    var before := LastStep(s, steps, q);
    SignHere(s, steps, q);
    if j < n {
      forall k | j <= k < n ensures SignAt(s, steps[..n], k, q) <==> SignAt(s, steps, k, q) { SignPrefix(s, steps, n, k, q); }
      LastSeenIs(s, steps[..n], j, q);
    }
  }

  lemma SignHere(s: State, steps: seq<Step>, q: PeerId)
    requires Run(s, steps) && steps != []
    ensures Run(s, steps[..|steps| - 1])
    ensures SignAt(s, steps, |steps| - 1, q) <==> SignOfLife(After(s, steps[..|steps| - 1]), steps[|steps| - 1], q)
  {
    hide Inv, Enabled, Apply, SignOfLife;
    RunPrefix(s, steps, |steps| - 1);
  }

  /** Whoever was heard from at `j` cannot time out within eight seconds of it; without a
      further sign it can as soon as they are over. */
  lemma HeardIsKept(s: State, steps: seq<Step>, j: nat, q: PeerId, t: real, o: Oracle)
    requires Run(s, steps) && j < |steps| && LiveAt(s, steps, j, q) && LiveAt(s, steps, |steps|, q) && SignAt(s, steps, j, q)
    requires forall k :: j < k < |steps| ==> steps[j].t <= steps[k].t
    ensures t - steps[j].t <= 8.0 ==> !Enabled(After(s, steps), Step(ClientTimeout(q), t, o))
    ensures (forall k :: j < k < |steps| ==> !SignAt(s, steps, k, q)) && t - steps[j].t > 8.0 && Arranged(After(s, steps), q, o)
        ==> Enabled(After(s, steps), Step(ClientTimeout(q), t, o))
  {
    hide Inv, Apply, LiveAt, SignAt, Arranged;
    var last := LastSign(s, steps, j, q);
    LiveBetween(s, steps, j, last, q);
    LastSeenIs(s, steps, last, q);
    if Arranged(After(s, steps), q, o) && t - After(s, steps).clients[q].lastSeen > 8.0 {
      TimeoutEnabled(After(s, steps), q, t, o);
    }
  }

  lemma TimeoutEnabled(s: State, q: PeerId, t: real, o: Oracle)
    requires Arranged(s, q, o) && q in s.clients && t - s.clients[q].lastSeen > 8.0
    ensures Enabled(s, Step(ClientTimeout(q), t, o))
  {
    hide ValidOrder, HostChoice;
  }

  /** The order and the host of a timeout fit. */
  ghost predicate Arranged(s: State, q: PeerId, o: Oracle) {
    ValidOrder(o.order, s.clients.Keys) && (q in s.clients ==> HostChoice(s.clients - {q}, o.host))
  }

  lemma {:induction false} LastSign(s: State, steps: seq<Step>, j: nat, q: PeerId) returns (last: nat)
    requires Run(s, steps) && j < |steps| && SignAt(s, steps, j, q)
    ensures j <= last < |steps| && SignAt(s, steps, last, q) && forall k :: last < k < |steps| ==> !SignAt(s, steps, k, q)
  {
    hide Run, SignAt;
    last := |steps| - 1;
    while !SignAt(s, steps, last, q)
      invariant j <= last < |steps| && forall k :: last < k < |steps| ==> !SignAt(s, steps, k, q)
      decreases last
    {
      last := last - 1;
    }
  }
}
