/** Bans over every run: a reputation below the floor is a ban, a ban is on record since the peer joined, and
    whoever is banned is cut off. */
module MeshBans {
  import opened Common
  import opened BufferMaps
  import opened Reassembly
  import opened SegmentStores
  import opened Picker
  import opened Wire
  import opened MeshState

  /** The record shows a ban of `p` since it last joined. */
  ghost predicate Out(log: seq<Conduct>, p: Peer) {
    log != [] && (if log[|log| - 1] == Joined(p) then false
                  else if log[|log| - 1] == Banned(p) then true
                  else Out(log[..|log| - 1], p))
  }

  lemma OutSnoc(log: seq<Conduct>, c: Conduct, p: Peer)
    ensures Out(log + [c], p) <==> if c == Joined(p) then false else if c == Banned(p) then true else Out(log, p)
  {
    assert (log + [c])[..|log + [c]| - 1] == log;
  }

  /** Below the floor means banned, banned means on record and no subscriber. */
  ghost predicate Judged(st: PeerState, out: bool, subscribed: bool) {
    && (st.reputation < REPUTATION_FLOOR ==> st.banned) && (st.banned <==> out) && (st.banned ==> !subscribed)
  }

  ghost predicate BanInv(s: Node) {
    && (forall p :: p in s.peers ==> Judged(s.peers[p], Out(s.hist.conduct, p), p in s.subscribers))
    && (forall k :: k in s.asm.reasm && k.0 in s.peers ==> !s.peers[k.0].banned)
  }

  /** Nobody was charged, joined or let in; no standing fell below the floor. */
  ghost predicate Unmoved(s: Node, t: Node) {
    && t.hist.conduct == s.hist.conduct && t.peers.Keys <= s.peers.Keys && t.subscribers <= s.subscribers
    && t.asm.reasm.Keys <= s.asm.reasm.Keys
    && forall p :: p in t.peers ==>
         && t.peers[p].banned == s.peers[p].banned
         && (t.peers[p].reputation >= s.peers[p].reputation || t.peers[p].reputation >= REPUTATION_FLOOR)
  }

  lemma UnmovedKeeps(s: Node, t: Node)
    requires BanInv(s) && Unmoved(s, t)
    ensures BanInv(t)
  {
    hide Out;
    forall p | p in t.peers ensures Judged(t.peers[p], Out(t.hist.conduct, p), p in t.subscribers) {
      assert Judged(s.peers[p], Out(s.hist.conduct, p), p in s.subscribers);
    }
  }

  lemma ReleaseUnmoved(s: Node, p: Peer)
    ensures Unmoved(s, Release(s, p)) && Release(s, p).edge == s.edge && Release(s, p).flight == s.flight
  {}

  lemma ClearUnmoved(s: Node, q: Seq)
    ensures Unmoved(s, ClearPending(s, q)) && ClearPending(s, q).edge == s.edge
  {
    hide Release;
    var c := ClearPrimary(s, q);
    if q in s.flight.pending {
      ReleaseUnmoved(s.(flight := s.flight.(pending := s.flight.pending - {q})), s.flight.pending[q].peer);
    }
    assert Unmoved(s, c) && c.edge == s.edge;
    hide ClearPrimary;
    if q in c.flight.hedge {
      ReleaseUnmoved(c.(flight := c.flight.(hedge := c.flight.hedge - {q})), c.flight.hedge[q].peer);
    }
  }

  lemma DeliverUnmoved(s: Node, q: Seq, id: Digest, b: Bytes, order: seq<Peer>)
    ensures Unmoved(s, DeliverVerified(s, q, id, b, order))
  {
    hide PushLedger, Targets, Store.Get, Store.Insert, BufMap.Set, BufMap.Has;
  }

  lemma AcceptKeeps(s: Node, p: Peer, q: Seq, id: Digest, b: Bytes, order: seq<Peer>)
    requires BanInv(s)
    ensures BanInv(AcceptSegment(s, p, q, id, b, order))
  {
    hide BanInv, ClearPending, DeliverVerified;
    ClearUnmoved(s, q);
    var c := ClearPending(s, q);
    UnmovedKeeps(s, c);
    var d := Credit(c, p, AskedFor(s, q), |b|);
    assert Unmoved(c, d);
    UnmovedKeeps(c, d);
    DeliverUnmoved(d, q, id, b, order);
    UnmovedKeeps(d, DeliverVerified(d, q, id, b, order));
  }

  // ---- charges ----

  lemma ChargeKeeps(s: Node, p: Peer, why: Penalty)
    requires BanInv(s) && p in s.peers && (Charge(s, p, why).peers[p].banned ==> s.peers[p].banned)
    ensures BanInv(Charge(s, p, why))
  {
    hide Decay, Out;
    forall x: Peer ensures Out(s.hist.conduct + [Charged(p, why)], x) <==> Out(s.hist.conduct, x) {
      OutSnoc(s.hist.conduct, Charged(p, why), x);
    }
    forall x | x in s.peers ensures Judged(Charge(s, p, why).peers[x], Out(s.hist.conduct, x), x in s.subscribers) {
      assert Judged(s.peers[x], Out(s.hist.conduct, x), x in s.subscribers);
    }
  }

  /** The crossing itself: charged, banned, unsubscribed, its slots gone. */
  lemma CrossingKeeps(s: Node, p: Peer, why: Penalty)
    requires BanInv(s) && p in s.peers && Charge(s, p, why).peers[p].banned && !s.peers[p].banned
    ensures BanInv(Penalize(s, p, why))
  {
    hide Decay, Out, Total, Restrict;
    var t := Penalize(s, p, why);
    var log := s.hist.conduct;
    assert t.hist.conduct == log + [Charged(p, why)] + [Banned(p)];
    forall x: Peer ensures Out(t.hist.conduct, x) <==> x == p || Out(log, x) {
      OutSnoc(log, Charged(p, why), x);
      OutSnoc(log + [Charged(p, why)], Banned(p), x);
    }
    forall x | x in t.peers ensures Judged(t.peers[x], Out(t.hist.conduct, x), x in t.subscribers) {
      assert Judged(s.peers[x], Out(log, x), x in s.subscribers);
    }
  }

  lemma PenalizeKeeps(s: Node, p: Peer, why: Penalty)
    requires BanInv(s)
    ensures BanInv(Penalize(s, p, why))
  {
    hide BanInv, Decay;
    if p in s.peers {
      if Charge(s, p, why).peers[p].banned && !s.peers[p].banned {
        CrossingKeeps(s, p, why);
      } else {
        ChargeKeeps(s, p, why);
      }
    }
  }

  lemma JoinKeeps(s: Node, p: Peer)
    requires BanInv(s)
    ensures BanInv(Join(s, p))
  {
    hide Out;
    if p !in s.peers {
      forall x: Peer ensures Out(s.hist.conduct + [Joined(p)], x) <==> x != p && Out(s.hist.conduct, x) {
        OutSnoc(s.hist.conduct, Joined(p), x);
      }
      forall x | x in s.peers ensures Judged(s.peers[x], Out(s.hist.conduct, x), x in s.subscribers) {}
    }
  }

  // ---- inbound ----

  lemma ApplyKeeps(s: Node, q: Seq, id: Digest, order: seq<Peer>)
    requires BanInv(s)
    ensures BanInv(ApplyEdge(s, q, id, order))
  {
    hide AcceptSegment, Penalize, BufMap.Has, BanInv;
    var r := Record(s, q, id);
    assert Unmoved(s, r);
    UnmovedKeeps(s, r);
    if q in r.park.parked {
      var u, p, raw := Unpark(r, q), r.park.parked[q].peer, r.park.parked[q].raw;
      assert Unmoved(r, u);
      UnmovedKeeps(r, u);
      PenalizeKeeps(u, p, HashFail);
      AcceptKeeps(u, p, q, id, raw, order);
    }
  }

  lemma CompletedKeeps(s: Node, p: Peer, q: Seq, r: Reasm, order: seq<Peer>)
    requires BanInv(s)
    ensures BanInv(Completed(s, p, q, r, order))
  {
    hide AcceptSegment, Penalize, ClearPending, BanInv, Reasm.Complete, Reasm.Assembled;
    ClearUnmoved(s, q);
    var c := ClearPending(s, q);
    UnmovedKeeps(s, c);
    PenalizeKeeps(c, p, HashFail);
    if q in s.edge.ids { AcceptKeeps(s, p, q, s.edge.ids[q], r.Assembled(), order); }
    var k := Park(c, p, q, r.Assembled());
    assert Unmoved(c, k);
    UnmovedKeeps(c, k);
  }

  ghost predicate CutOff(s: Node, p: Peer) { p in s.peers && s.peers[p].banned }

  lemma SegmentDataKeeps(s: Node, p: Peer, q: Seq, total: nat, offset: nat, chunk: Bytes, order: seq<Peer>)
    requires BanInv(s) && !CutOff(s, p)
    ensures BanInv(OnSegmentData(s, p, q, total, offset, chunk, order))
  {
    hide Completed, Penalize, SlotRefused, Spray, Asked, InPushWindow, Total, Restrict, BufMap.Has, BanInv;
    PenalizeKeeps(s, p, ProtocolAbuse);
    var s1 := BufferChunk(s, (p, q), total, offset, chunk);
    ChunkKeeps(s, p, q, total, offset, chunk);
    var s2 := DropSlots(s1, {(p, q)});
    assert Unmoved(s1, s2);
    UnmovedKeeps(s1, s2);
    CompletedKeeps(s2, p, q, s1.asm.reasm[(p, q)].r, order);
  }

  lemma ChunkKeeps(s: Node, p: Peer, q: Seq, total: nat, offset: nat, chunk: Bytes)
    requires BanInv(s) && !CutOff(s, p)
    ensures BanInv(BufferChunk(s, (p, q), total, offset, chunk))
  {
    hide Reasm.Add, Reasm.Gain, Out;
  }

  lemma NoteKeeps(s: Node, p: Peer, msg: Msg)
    requires BanInv(s) && !CutOff(s, p)
    ensures BanInv(OnPeerNote(s, p, msg))
  {
    hide Out, BufMap.Set, Ewma.Update;
    if msg.Subscribe? {
      var t := OnPeerNote(s, p, msg);
      forall x | x in t.peers ensures Judged(t.peers[x], Out(t.hist.conduct, x), x in t.subscribers) {
        assert Judged(s.peers[x], Out(s.hist.conduct, x), x in s.subscribers);
      }
    } else {
      assert Unmoved(s, OnPeerNote(s, p, msg));
      UnmovedKeeps(s, OnPeerNote(s, p, msg));
    }
  }

  lemma ChatterKeeps(s: Node, p: Peer, msg: Msg)
    requires BanInv(s) && !CutOff(s, p)
    ensures BanInv(OnChatter(s, p, msg))
  {
    hide Penalize, Enqueue, BanInv, Join, OnPeerNote, FromBytes;
    PenalizeKeeps(s, p, ProtocolAbuse);
    match msg
    case BufferMapMsg(base, bits) =>
      JoinKeeps(s, p);
      JoinHas(s, p);
      if |bits| <= MAX_BITFIELD_BYTES {
        assert Unmoved(Join(s, p), OnBufferMap(s, p, base, bits));
        UnmovedKeeps(Join(s, p), OnBufferMap(s, p, base, bits));
      }
    case Want(seqs) =>
      if |seqs| <= MAX_WANT_SEQS {
        assert Unmoved(s, OnWant(s, p, seqs));
        UnmovedKeeps(s, OnWant(s, p, seqs));
      }
    case PeerGossip(_) =>
    case PresenceGossip(_) =>
    case _ => NoteKeeps(s, p, msg);
  }

  lemma JoinHas(s: Node, p: Peer)
    ensures p in Join(s, p).peers
  {}

  lemma InboundKeeps(s: Node, p: Peer, msg: Msg, order: seq<Peer>)
    requires BanInv(s)
    ensures BanInv(OnInbound(s, p, msg, order))
  {
    hide OnSegmentData, ApplyEdge, OnChatter, BanInv, JudgeEdge;
    if !CutOff(s, p) {
      match msg
      case SegmentData(q, total, offset, chunk) => SegmentDataKeeps(s, p, q, total, offset, chunk, order);
      case EdgeAnnounce(q, id, sig) =>
        assert Unmoved(s, See(s, q));
        UnmovedKeeps(s, See(s, q));
        ApplyKeeps(See(s, q), q, id, order);
      case _ => ChatterKeeps(s, p, msg);
    }
  }

  // ---- the tick and the rest ----

  lemma {:induction false} ServeUnmoved(s: Node, order: seq<Peer>)
    ensures Unmoved(s, TickServe(s, order))
    decreases |order|
  {
    hide ServeQueue;
    if order != [] { ServeUnmoved(s, order[..|order| - 1]); }
  }

  lemma {:induction false} ExpireKeeps(s: Node, order: seq<Seq>)
    requires BanInv(s)
    ensures BanInv(TickExpire(s, order))
    decreases |order|
  {
    hide ExpireOne, BanInv;
    if order != [] {
      ExpireKeeps(s, order[..|order| - 1]);
      ExpireOneKeeps(TickExpire(s, order[..|order| - 1]), order[|order| - 1]);
    }
  }

  lemma ExpireOneKeeps(s: Node, q: Seq)
    requires BanInv(s)
    ensures BanInv(ExpireOne(s, q))
  {
    hide ClearPending, Penalize, Total, Restrict, BanInv;
    if Stale(s, q) {
      var p := s.flight.pending[q].peer;
      ClearUnmoved(s, q);
      var d := DropSlots(ClearPending(s, q), {(p, q)});
      assert Unmoved(s, d);
      UnmovedKeeps(s, d);
      PenalizeKeeps(d, p, Timeout);
    }
  }

  lemma UpkeepKeeps(s: Node, t: TickInput)
    requires BanInv(s)
    ensures BanInv(TickUpkeep(s, t))
  {
    hide TickExpire, Total, Restrict, OldSlots, Behind, BanInv;
    ExpireKeeps(s, t.askOrder);
    assert Unmoved(TickExpire(s, t.askOrder), TickUpkeep(s, t));
    UnmovedKeeps(TickExpire(s, t.askOrder), TickUpkeep(s, t));
  }

  lemma {:induction false} IssueUnmoved(s: Node, rs: seq<Request>)
    ensures Unmoved(s, IssueAll(s, rs))
    decreases |rs|
  {
    if rs != [] { IssueUnmoved(s, rs[..|rs| - 1]); }
  }

  lemma TickKeeps(s: Node, t: TickInput)
    requires BanInv(s)
    ensures BanInv(OnTick(s, t))
  {
    hide TickUpkeep, IssueAll, TickServe, Input.Plan, PickInput, Store.PruneBelow, BufMap.PruneBelow, BufMap.Highest,
        BanInv;
    var r := TickRefill(TickPrune(TickCursor(s.(now := s.now + t.dt), t.playHead)));
    assert Unmoved(s, r);
    hide TickRefill, TickPrune, TickCursor;
    ServeUnmoved(r, t.peerOrder);
    var v := TickServe(r, t.peerOrder);
    UnmovedKeeps(s, r);
    UnmovedKeeps(r, v);
    UpkeepKeeps(v, t);
    var u := TickUpkeep(v, t);
    var plan := PickInput(u, t.peerOrder).Plan(u.win.local, t.chance);
    IssueUnmoved(u, plan);
    UnmovedKeeps(u, IssueAll(u, plan));
  }

  lemma FallbackUnmoved(s: Node, q: Seq, bytes: Option<Bytes>, order: seq<Peer>)
    requires q in s.inflight
    ensures Unmoved(s, OnFallback(s, q, bytes, order))
  {
    hide ClearPending, DeliverVerified, BufMap.Has;
    var s1 := s.(inflight := s.inflight - {q});
    ClearUnmoved(s1, q);
    if bytes.Some? { DeliverUnmoved(ClearPending(s1, q), q, s.inflight[q], bytes.value, order); }
  }

  lemma ProducedUnmoved(s: Node, q: Seq, id: Digest, b: Bytes, order: seq<Peer>)
    ensures Unmoved(s, OnProduced(s, q, id, b, order))
  {
    hide Store.Insert, PushLedger, Targets, Store.Get, BufMap.Set, BufMap.Has;
  }

  lemma DisconnectUnmoved(s: Node, p: Peer)
    ensures Unmoved(s, OnDisconnected(s, p))
  {
    hide Total, Restrict, Promoted, Unhedged;
  }

  lemma StepBans(s: Node, e: Event)
    requires BanInv(s) && Legal(s, e)
    ensures BanInv(Step(s, e))
  {
    hide BanInv, OnTick, OnInbound, ApplyEdge, OnDisconnected, OnFallback, OnProduced, Join, Enumerates;
    match e
    case PeerConnected(p, refused) =>
      JoinKeeps(s, p);
      assert Unmoved(Join(s, p), Join(s, p).(links := s.links + {p}));
      UnmovedKeeps(Join(s, p), Join(s, p).(links := s.links + {p}));
    case PeerDisconnected(p) => DisconnectUnmoved(s, p); UnmovedKeeps(s, OnDisconnected(s, p));
    case Inbound(p, msg, order) => InboundKeeps(s, p, msg, order);
    case LiveEdge(q, id, order) => ApplyKeeps(s, q, id, order);
    case Produced(q, id, b, order) => ProducedUnmoved(s, q, id, b, order); UnmovedKeeps(s, Step(s, e));
    case Tick(t) => TickKeeps(s, t);
    case FallbackDone(q, bytes, order) => FallbackUnmoved(s, q, bytes, order); UnmovedKeeps(s, Step(s, e));
    case SetPublisherKey(_) => assert Unmoved(s, Step(s, e)); UnmovedKeeps(s, Step(s, e));
    case SetRole(_) => assert Unmoved(s, Step(s, e)); UnmovedKeeps(s, Step(s, e));
    case SetUploadBudget(_) => assert Unmoved(s, Step(s, e)); UnmovedKeeps(s, Step(s, e));
    case SetSegMs(_) => assert Unmoved(s, Step(s, e)); UnmovedKeeps(s, Step(s, e));
  }

  /** Five forgeries take any standing below the floor. */
  lemma FiveForgeriesSuffice(rep: real)
    requires rep <= 1.0
    ensures Decay(Decay(Decay(Decay(Decay(rep, HashFail), HashFail), HashFail), HashFail), HashFail) < REPUTATION_FLOOR
  {}
}
