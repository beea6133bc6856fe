/** Reputation over every run: a ban takes at least two proven offences since the peer
    joined or last timed out; timeouts and deliveries alone never ban. */
module MeshConduct {
  import opened Common
  import opened BufferMaps
  import opened Reassembly
  import opened Picker
  import opened MeshState
  import opened MeshFlight

  predicate Offence(why: Penalty) { why.HashFail? || why.ProtocolAbuse? }

  /** Offences charged to `p` since it joined or last timed out, whichever is later. */
  function Offences(log: seq<Conduct>, p: Peer): nat
    decreases |log|
  {
    if log == [] then 0 else
      var c := log[|log| - 1];
      if c == Joined(p) || c == Charged(p, Timeout) then 0
      else Offences(log[..|log| - 1], p) + (if c.Charged? && c.peer == p && Offence(c.why) then 1 else 0)
  }

  /** What a reputation can have fallen to after `n` offences. */
  predicate Standing(rep: real, n: nat) {
    && 0.0 < rep <= 1.0
    && (n == 0 ==> rep >= TIMEOUT_REP_FLOOR)
    && (n <= 1 ==> rep >= REPUTATION_FLOOR)
  }

  /** Every ban on record follows directly on an offence, at least the second one. */
  ghost predicate BansEarned(log: seq<Conduct>) {
    forall i :: 0 <= i < |log| && log[i].Banned? ==>
      && i > 0 && log[i - 1].Charged? && log[i - 1].peer == log[i].peer && Offence(log[i - 1].why)
      && Offences(log[..i], log[i].peer) >= 2
  }

  ghost predicate ConductInv(s: Node) {
    && BansEarned(s.hist.conduct)
    && forall p :: p in s.peers ==> Standing(s.peers[p].reputation, Offences(s.hist.conduct, p))
  }

  /** `t` has the same record, and no reputation has fallen or left (0, 1]. */
  ghost predicate NoWorse(s: Node, t: Node) {
    && t.hist.conduct == s.hist.conduct && t.peers.Keys <= s.peers.Keys
    && forall p :: p in t.peers ==>
       s.peers[p].reputation <= t.peers[p].reputation <= MaxReal(s.peers[p].reputation, 1.0)
  }

  lemma ConductFrame(s: Node, t: Node)
    requires ConductInv(s) && NoWorse(s, t)
    ensures ConductInv(t)
  {}

  lemma LogAppend(log: seq<Conduct>, c: Conduct, p: Peer)
    ensures Offences(log + [c], p) ==
            if c == Joined(p) || c == Charged(p, Timeout) then 0
            else Offences(log, p) + (if c.Charged? && c.peer == p && Offence(c.why) then 1 else 0)
  {
    assert (log + [c])[..|log|] == log;
  }

  lemma BansAppend(log: seq<Conduct>, c: Conduct)
    requires BansEarned(log)
    requires c.Banned? ==> && log != [] && log[|log| - 1].Charged? && log[|log| - 1].peer == c.peer
                           && Offence(log[|log| - 1].why) && Offences(log, c.peer) >= 2
    ensures BansEarned(log + [c])
  {
    hide Offences;
    var l := log + [c];
    assert forall i :: 0 <= i < |log| ==> l[i] == log[i];
    forall i | 0 <= i < |l| && l[i].Banned?
      ensures i > 0 && l[i - 1].Charged? && l[i - 1].peer == l[i].peer && Offence(l[i - 1].why)
              && Offences(l[..i], l[i].peer) >= 2
    {
      assert l[..i] == log[..i];
      if i == |log| { assert log[..i] == log; } else { assert log[i].Banned?; }
    }
  }

  /** One more charge keeps every standing sound. */
  lemma ChargeConduct(s: Node, p: Peer, why: Penalty)
    requires ConductInv(s) && p in s.peers
    ensures ConductInv(Charge(s, p, why))
    ensures Charge(s, p, why).peers[p].banned && !s.peers[p].banned ==>
              Offence(why) && Offences(Charge(s, p, why).hist.conduct, p) >= 2
  {
    var log := s.hist.conduct;
    BansAppend(log, Charged(p, why));
    forall x | x in s.peers
      ensures Standing(Charge(s, p, why).peers[x].reputation, Offences(log + [Charged(p, why)], x))
    {
      LogAppend(log, Charged(p, why), x);
    }
  }

  lemma PenalizeConduct(s: Node, p: Peer, why: Penalty)
    requires ConductInv(s)
    ensures ConductInv(Penalize(s, p, why))
  {
    hide Charge, DropSlots, SlotsOf, Note, ConductInv, Offences;
    if p in s.peers {
      ChargeConduct(s, p, why);
      ChargeEffect(s, p, why);
      var s1 := Charge(s, p, why);
      if s1.peers[p].banned && !s.peers[p].banned {
        BanConduct(s1, p);
        var s2 := Note(s1, Banned(p)).(subscribers := s.subscribers - {p});
        SameConduct(Note(s1, Banned(p)), s2);
        DropConduct(s2, SlotsOf(s, p));
      }
    }
  }

  lemma BanConduct(s: Node, p: Peer)
    requires ConductInv(s) && s.hist.conduct != []
    requires var c := s.hist.conduct[|s.hist.conduct| - 1];
             c.Charged? && c.peer == p && Offence(c.why) && Offences(s.hist.conduct, p) >= 2
    ensures ConductInv(Note(s, Banned(p)))
  {
    var log := s.hist.conduct;
    BansAppend(log, Banned(p));
    hide BansEarned, Standing;
    forall x: Peer ensures Offences(log + [Banned(p)], x) == Offences(log, x) { LogAppend(log, Banned(p), x); }
    hide Offences;
  }

  lemma DropConduct(s: Node, ks: set<(Peer, Seq)>)
    requires ConductInv(s)
    ensures ConductInv(DropSlots(s, ks))
  {
    hide Total, Restrict, BansEarned, Standing, Offences;
  }

  lemma ChargeEffect(s: Node, p: Peer, why: Penalty)
    requires p in s.peers
    ensures Charge(s, p, why).hist.conduct == s.hist.conduct + [Charged(p, why)]
    ensures p in Charge(s, p, why).peers && Charge(s, p, why).peers.Keys == s.peers.Keys
  {}

  lemma JoinConduct(s: Node, p: Peer)
    requires ConductInv(s)
    ensures ConductInv(Join(s, p))
  {
    if p !in s.peers {
      BansAppend(s.hist.conduct, Joined(p));
      forall x: Peer { LogAppend(s.hist.conduct, Joined(p), x); }
    }
  }

  lemma ClearNoWorse(s: Node, q: Seq)
    requires forall p :: p in s.peers ==> s.peers[p].reputation <= 1.0
    ensures NoWorse(s, ClearPending(s, q)) && ClearPending(s, q).edge == s.edge
  {}

  lemma AcceptConduct(s: Node, p: Peer, q: Seq, id: Digest, b: Bytes, order: seq<Peer>)
    requires ConductInv(s)
    ensures ConductInv(AcceptSegment(s, p, q, id, b, order))
  {
    hide ClearPending, DeliverVerified, BansEarned;
    ClearNoWorse(s, q);
    var c := ClearPending(s, q);
    ConductFrame(s, c);
    var d := Credit(c, p, AskedFor(s, q), |b|);
    ConductFrame(c, d);
    DeliverSameConduct(d, q, id, b, order);
    ConductFrame(d, DeliverVerified(d, q, id, b, order));
  }

  lemma DeliverSameConduct(s: Node, q: Seq, id: Digest, b: Bytes, order: seq<Peer>)
    ensures DeliverVerified(s, q, id, b, order).hist.conduct == s.hist.conduct
    ensures DeliverVerified(s, q, id, b, order).peers == s.peers
  {}

  lemma ApplyEdgeConduct(s: Node, q: Seq, id: Digest, order: seq<Peer>)
    requires ConductInv(s)
    ensures ConductInv(ApplyEdge(s, q, id, order))
  {
    hide AcceptSegment, Penalize, BansEarned;
    var r := Record(s, q, id);
    ConductFrame(s, r);
    if q in r.park.parked {
      var u, p, raw := Unpark(r, q), r.park.parked[q].peer, r.park.parked[q].raw;
      ConductFrame(s, u);
      AcceptConduct(u, p, q, id, raw, order);
      PenalizeConduct(u, p, HashFail);
    }
  }

  lemma CompletedConduct(s: Node, p: Peer, q: Seq, r: Reasm, order: seq<Peer>)
    requires ConductInv(s)
    ensures ConductInv(Completed(s, p, q, r, order))
  {
    hide AcceptSegment, Penalize, ClearPending, BansEarned;
    ClearNoWorse(s, q);
    var c := ClearPending(s, q);
    ConductFrame(s, c);
    PenalizeConduct(c, p, HashFail);
    ConductFrame(c, Park(c, p, q, r.Assembled()));
    if q in s.edge.ids { AcceptConduct(s, p, q, s.edge.ids[q], r.Assembled(), order); }
  }

  lemma SegmentDataConduct(s: Node, p: Peer, q: Seq, total: nat, offset: nat, chunk: Bytes, order: seq<Peer>)
    requires ConductInv(s)
    ensures ConductInv(OnSegmentData(s, p, q, total, offset, chunk, order))
  {
    hide Completed, Penalize, SlotRefused, Spray, Asked, InPushWindow, Total, Restrict, BansEarned;
    PenalizeConduct(s, p, ProtocolAbuse);
    var s1 := BufferChunk(s, (p, q), total, offset, chunk);
    var s2 := DropSlots(s1, {(p, q)});
    ConductFrame(s, s1);
    ConductFrame(s, s2);
    CompletedConduct(s2, p, q, s1.asm.reasm[(p, q)].r, order);
  }

  lemma {:induction false} ServeNoWorse(s: Node, order: seq<Peer>)
    requires ConductInv(s)
    ensures ConductInv(TickServe(s, order))
    decreases |order|
  {
    hide ServeQueue, BansEarned;
    if order != [] {
      ServeNoWorse(s, order[..|order| - 1]);
      ConductFrame(TickServe(s, order[..|order| - 1]), TickServe(s, order));
    }
  }

  lemma {:induction false} ExpireConduct(s: Node, order: seq<Seq>)
    requires ConductInv(s)
    ensures ConductInv(TickExpire(s, order))
    decreases |order|
  {
    hide ClearPending, Penalize, Total, Restrict, BansEarned;
    if order != [] {
      ExpireConduct(s, order[..|order| - 1]);
      var t, q := TickExpire(s, order[..|order| - 1]), order[|order| - 1];
      if Stale(t, q) {
        ClearNoWorse(t, q);
        var d := DropSlots(ClearPending(t, q), {(t.flight.pending[q].peer, q)});
        ConductFrame(t, d);
        PenalizeConduct(d, t.flight.pending[q].peer, Timeout);
      }
    }
  }

  lemma UpkeepConduct(s: Node, t: TickInput)
    requires ConductInv(s)
    ensures ConductInv(TickUpkeep(s, t))
  {
    hide TickExpire, Total, Restrict, BansEarned;
    ExpireConduct(s, t.askOrder);
    ConductFrame(TickExpire(s, t.askOrder), TickUpkeep(s, t));
  }

  lemma {:induction false} IssueConduct(s: Node, rs: seq<Request>)
    requires ConductInv(s)
    ensures ConductInv(IssueAll(s, rs))
    decreases |rs|
  {
    hide BansEarned;
    if rs != [] {
      IssueConduct(s, rs[..|rs| - 1]);
      ConductFrame(IssueAll(s, rs[..|rs| - 1]), IssueAll(s, rs));
    }
  }

  lemma TickConduct(s: Node, t: TickInput)
    requires ConductInv(s)
    ensures ConductInv(OnTick(s, t))
  {
    hide ConductInv, TickUpkeep, IssueAll, TickServe, Input.Plan, PickInput;
    var r := TickRefill(TickPrune(TickCursor(s.(now := s.now + t.dt), t.playHead)));
    SameConduct(s, r);
    ServeNoWorse(r, t.peerOrder);
    UpkeepConduct(TickServe(r, t.peerOrder), t);
    var u := TickUpkeep(TickServe(r, t.peerOrder), t);
    IssueConduct(u, PickInput(u, t.peerOrder).Plan(u.win.local, t.chance));
  }

  lemma SameConduct(s: Node, t: Node)
    requires ConductInv(s) && t.peers == s.peers && t.hist.conduct == s.hist.conduct
    ensures ConductInv(t)
  {}

  lemma ChatterConduct(s: Node, p: Peer, msg: Msg)
    requires ConductInv(s)
    ensures ConductInv(OnChatter(s, p, msg))
  {
    hide Penalize, ConductInv, Enqueue, OnBufferMap, OnPeerNote;
    PenalizeConduct(s, p, ProtocolAbuse);
    match msg
    case BufferMapMsg(base, bits) => BufferMapConduct(s, p, base, bits);
    case Want(seqs) => WantConduct(s, p, seqs);
    case PeerGossip(_) =>
    case PresenceGossip(_) =>
    case _ => NoteConduct(s, p, msg);
  }

  lemma BufferMapConduct(s: Node, p: Peer, base: Seq, bits: Bytes)
    requires ConductInv(s)
    ensures ConductInv(OnBufferMap(s, p, base, bits))
  {
    hide Penalize, BansEarned, Join, Offences, Standing, FromBytes;
    PenalizeConduct(s, p, ProtocolAbuse);
    JoinConduct(s, p);
    JoinHas(s, p);
    if |bits| <= MAX_BITFIELD_BYTES { AtMostOne(Join(s, p)); ConductFrame(Join(s, p), OnBufferMap(s, p, base, bits)); }
  }

  lemma WantConduct(s: Node, p: Peer, seqs: seq<Seq>)
    requires ConductInv(s)
    ensures ConductInv(OnWant(s, p, seqs))
  {
    hide Penalize, BansEarned, Enqueue, Offences, Standing;
    PenalizeConduct(s, p, ProtocolAbuse);
    if |seqs| <= MAX_WANT_SEQS { AtMostOne(s); ConductFrame(s, OnWant(s, p, seqs)); }
  }

  lemma NoteConduct(s: Node, p: Peer, msg: Msg)
    requires ConductInv(s)
    ensures ConductInv(OnPeerNote(s, p, msg))
  {
    hide BansEarned, Offences, Standing;
    AtMostOne(s);
    ConductFrame(s, OnPeerNote(s, p, msg));
  }

  lemma AtMostOne(s: Node)
    requires ConductInv(s)
    ensures forall p :: p in s.peers ==> 0.0 < s.peers[p].reputation <= 1.0
  {
    hide BansEarned, Offences;
  }

  lemma InboundConduct(s: Node, p: Peer, msg: Msg, order: seq<Peer>)
    requires ConductInv(s)
    ensures ConductInv(OnInbound(s, p, msg, order))
  {
    hide ConductInv, OnSegmentData, ApplyEdge, OnChatter;
    match msg
    case SegmentData(q, total, offset, chunk) => SegmentDataConduct(s, p, q, total, offset, chunk, order);
    case EdgeAnnounce(q, id, sig) =>
      SameConduct(s, See(s, q));
      ApplyEdgeConduct(See(s, q), q, id, order);
    case _ => ChatterConduct(s, p, msg);
  }

  lemma FallbackConduct(s: Node, q: Seq, bytes: Option<Bytes>, order: seq<Peer>)
    requires ConductInv(s) && q in s.inflight
    ensures ConductInv(OnFallback(s, q, bytes, order))
  {
    hide ClearPending, DeliverVerified, BansEarned;
    var s1 := s.(inflight := s.inflight - {q});
    SameConduct(s, s1);
    ClearNoWorse(s1, q);
    var c := ClearPending(s1, q);
    ConductFrame(s1, c);
    if bytes.Some? {
      DeliverSameConduct(c, q, s.inflight[q], bytes.value, order);
      SameConduct(c, DeliverVerified(c, q, s.inflight[q], bytes.value, order));
    }
  }

  lemma StepConduct(s: Node, e: Event)
    requires ConductInv(s) && Legal(s, e)
    ensures ConductInv(Step(s, e))
  {
    hide ConductInv, OnTick, OnInbound, ApplyEdge, OnDisconnected, OnFallback, Keep, PushLedger, Targets, Join;
    match e
    case PeerConnected(p, refused) => JoinConduct(s, p); SameConduct(Join(s, p), Join(s, p).(links := s.links + {p}));
    case PeerDisconnected(p) => DisconnectConduct(s, p);
    case Inbound(p, msg, order) => InboundConduct(s, p, msg, order);
    case LiveEdge(q, id, order) => ApplyEdgeConduct(s, q, id, order);
    case Produced(q, id, b, order) => KeepConduct(s, q, id, b); SameConduct(s, Step(s, e));
    case Tick(t) => TickConduct(s, t);
    case FallbackDone(q, bytes, order) => FallbackConduct(s, q, bytes, order);
    case _ => SameConduct(s, Step(s, e));
  }

  lemma KeepConduct(s: Node, q: Seq, id: Digest, b: Bytes)
    ensures Keep(s, q, id, b).peers == s.peers && Keep(s, q, id, b).hist == s.hist
  {}

  lemma DisconnectConduct(s: Node, p: Peer)
    requires ConductInv(s)
    ensures ConductInv(OnDisconnected(s, p))
  {
    hide Total, Restrict, SlotsOf, Promoted, Unhedged;
    ConductFrame(s, OnDisconnected(s, p));
  }

  /** A timeout raises a reputation exactly when it already lies below the timeout floor. */
  lemma TimeoutForgivesExactly(rep: real)
    requires 0.0 < rep <= 1.0
    ensures Decay(rep, Timeout) > rep <==> rep < TIMEOUT_REP_FLOOR
    ensures Decay(rep, HashFail) < rep && Decay(rep, ProtocolAbuse) < rep
  {
    if rep >= TIMEOUT_REP_FLOOR { assert rep * Timeout.Factor() < rep; }
  }
}
