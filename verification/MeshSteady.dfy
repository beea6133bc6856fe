/** What a node's everyday events leave alone: its links, its trust anchor, its memory of one
    gossiped edge, and its bans. The gossip proof runs these events between deliveries. */
module MeshSteady {
  import opened Common
  import opened BufferMaps
  import opened Reassembly
  import opened SegmentStores
  import opened Picker
  import opened Wire
  import opened MeshState

  ghost predicate BansKept(s: map<Peer, PeerState>, t: map<Peer, PeerState>) {
    forall p :: p in s ==> p in t && (s[p].banned ==> t[p].banned)
  }

  /** Identity, links, trust anchor and bans are as before; ids may have been learned. */
  ghost predicate Kept(s: Node, t: Node) {
    && t.env == s.env && t.links == s.links && t.edge.key == s.edge.key
    && s.hist.recorded <= t.hist.recorded && BansKept(s.peers, t.peers)
  }

  /** The id on record for `q` stays, unless the prune floor rises past it. */
  ghost predicate IdKept(q: Seq, s: Node, t: Node) {
    && s.win.floor <= t.win.floor
    && (q in s.edge.ids ==> q < t.win.floor || (q in t.edge.ids && t.edge.ids[q] == s.edge.ids[q]))
  }

  /** Beyond that, neither whether segment `q`'s edge was seen nor the id on record for it has changed. */
  ghost predicate Steady(q: Seq, s: Node, t: Node) {
    Kept(s, t) && (q in t.edge.edgeSeen <==> q in s.edge.edgeSeen) && IdKept(q, s, t)
  }

  /** `s` has `id` on record for `q`, or has pruned past it. */
  ghost predicate Holds(s: Node, q: Seq, id: Digest) { q < s.win.floor || (q in s.edge.ids && s.edge.ids[q] == id) }

  lemma SteadyTrans(q: Seq, a: Node, b: Node, c: Node)
    requires Steady(q, a, b) && Steady(q, b, c)
    ensures Steady(q, a, c)
  {}

  lemma ReleaseSteady(q: Seq, s: Node, p: Peer)
    ensures Steady(q, s, Release(s, p))
  {}

  lemma ClearSteady(q: Seq, s: Node, r: Seq)
    ensures Steady(q, s, ClearPending(s, r))
  {
    hide Release, Steady;
    var c := ClearPrimary(s, r);
    assert Steady(q, s, c) by { DropAskSteady(q, s, r); }
    DropAskSteady(q, c, r);
    SteadyTrans(q, s, c, ClearPending(s, r));
  }

  lemma DropAskSteady(q: Seq, s: Node, r: Seq)
    ensures Steady(q, s, ClearPrimary(s, r)) && Steady(q, s, ClearHedge(s, r))
  {
    hide Release;
    if r in s.flight.pending {
      ReleaseSteady(q, s.(flight := s.flight.(pending := s.flight.pending - {r})), s.flight.pending[r].peer);
    }
    if r in s.flight.hedge {
      ReleaseSteady(q, s.(flight := s.flight.(hedge := s.flight.hedge - {r})), s.flight.hedge[r].peer);
    }
  }

  lemma PenalizeSteady(q: Seq, s: Node, p: Peer, why: Penalty)
    ensures Steady(q, s, Penalize(s, p, why))
  {
    hide Total, Restrict, SlotsOf, Decay;
  }

  lemma PushSteady(q: Seq, s: Node, r: Seq, order: seq<Peer>)
    ensures Steady(q, s, PushToSubscribers(s, r, order))
  {
    hide PushLedger, Targets, Store.Get;
  }

  lemma DeliverSteady(q: Seq, s: Node, r: Seq, id: Digest, b: Bytes, order: seq<Peer>)
    ensures Steady(q, s, DeliverVerified(s, r, id, b, order))
  {
    hide PushToSubscribers, Store.Insert, BufMap.Set, BufMap.Has;
    var k := Keep(s, r, id, b);
    PushSteady(q, k.(hist := k.hist.(sink := k.hist.sink + [(r, b)])), r, order);
  }

  lemma AcceptSteady(q: Seq, s: Node, p: Peer, r: Seq, id: Digest, b: Bytes, order: seq<Peer>)
    ensures Steady(q, s, AcceptSegment(s, p, r, id, b, order))
  {
    hide ClearPending, DeliverVerified;
    ClearSteady(q, s, r);
    DeliverSteady(q, Credit(ClearPending(s, r), p, AskedFor(s, r), |b|), r, id, b, order);
  }

  lemma TryVerifySteady(q: Seq, s: Node, r: Seq, order: seq<Peer>)
    ensures Steady(q, s, TryVerifyParked(s, r, order))
  {
    hide AcceptSegment, Penalize, BufMap.Has;
    if r in s.park.parked {
      var u, p, raw := Unpark(s, r), s.park.parked[r].peer, s.park.parked[r].raw;
      PenalizeSteady(q, u, p, HashFail);
      if r in s.edge.ids { AcceptSteady(q, u, p, r, s.edge.ids[r], raw, order); }
    }
  }

  /** Applying an edge records it, and is otherwise steady. */
  lemma ApplySteady(q: Seq, s: Node, r: Seq, id: Digest, order: seq<Peer>)
    ensures var t := ApplyEdge(s, r, id, order);
            && Kept(s, t) && (q in t.edge.edgeSeen <==> q in s.edge.edgeSeen)
            && (r, id) in t.hist.recorded && Holds(t, r, id)
            && (q != r || (q in s.edge.ids ==> s.edge.ids[q] == id) ==> Steady(q, s, t))
  {
    hide TryVerifyParked;
    TryVerifySteady(q, Record(s, r, id), r, order);
    TryVerifySteady(r, Record(s, r, id), r, order);
  }

  lemma SegmentDataSteady(q: Seq, s: Node, p: Peer, r: Seq, total: nat, offset: nat, chunk: Bytes, order: seq<Peer>)
    ensures Steady(q, s, OnSegmentData(s, p, r, total, offset, chunk, order))
  {
    hide Completed, Penalize, SlotRefused, Spray, Asked, InPushWindow, Total, Restrict, BufMap.Has;
    PenalizeSteady(q, s, p, ProtocolAbuse);
    var s1 := BufferChunk(s, (p, r), total, offset, chunk);
    CompletedSteady(q, DropSlots(s1, {(p, r)}), p, r, s1.asm.reasm[(p, r)].r, order);
  }

  lemma CompletedSteady(q: Seq, s: Node, p: Peer, r: Seq, a: Reasm, order: seq<Peer>)
    ensures Steady(q, s, Completed(s, p, r, a, order))
  {
    hide AcceptSegment, Penalize, ClearPending, Reasm.Complete, Reasm.Assembled;
    ClearSteady(q, s, r);
    PenalizeSteady(q, ClearPending(s, r), p, HashFail);
    if r in s.edge.ids { AcceptSteady(q, s, p, r, s.edge.ids[r], a.Assembled(), order); }
  }

  lemma ChatterSteady(q: Seq, s: Node, p: Peer, msg: Msg)
    ensures Steady(q, s, OnChatter(s, p, msg))
  {
    hide Penalize, Enqueue, FromBytes, BufMap.Set;
    PenalizeSteady(q, s, p, ProtocolAbuse);
  }

  lemma {:induction false} ServeSteady(q: Seq, s: Node, order: seq<Peer>)
    ensures Steady(q, s, TickServe(s, order))
    decreases |order|
  {
    hide ServeQueue;
    if order != [] { ServeSteady(q, s, order[..|order| - 1]); }
  }

  lemma {:induction false} ExpireSteady(q: Seq, s: Node, order: seq<Seq>)
    ensures Steady(q, s, TickExpire(s, order)) && TickExpire(s, order).edge == s.edge
    decreases |order|
  {
    hide ExpireOne, Steady;
    if order != [] {
      var r := TickExpire(s, order[..|order| - 1]);
      ExpireSteady(q, s, order[..|order| - 1]);
      ExpireOneSteady(q, r, order[|order| - 1]);
      SteadyTrans(q, s, r, ExpireOne(r, order[|order| - 1]));
    } else {
      assert Steady(q, s, s) by { SteadySelf(q, s); }
    }
  }

  lemma SteadySelf(q: Seq, s: Node)
    ensures Steady(q, s, s)
  {}

  lemma ExpireOneSteady(q: Seq, s: Node, r: Seq)
    ensures Steady(q, s, ExpireOne(s, r)) && ExpireOne(s, r).edge == s.edge
  {
    hide ClearPending, Penalize, Total, Restrict;
    if Stale(s, r) {
      var p := s.flight.pending[r].peer;
      ClearSteady(q, s, r);
      ClearEdge(s, r);
      var d := DropSlots(ClearPending(s, r), {(p, r)});
      PenalizeSteady(q, d, p, Timeout);
      PenalizeEdge(d, p, Timeout);
    }
  }

  lemma ClearEdge(s: Node, r: Seq)
    ensures ClearPending(s, r).edge == s.edge
  {}

  lemma PenalizeEdge(s: Node, p: Peer, why: Penalty)
    ensures Penalize(s, p, why).edge == s.edge
  {
    hide Total, Restrict, SlotsOf, Decay;
  }

  /** An edge within the dedup horizon of the head is not forgotten. */
  ghost predicate Remembered(q: Seq, s: Node) { s.edge.head <= q + EDGE_SEEN_KEEP }

  lemma UpkeepSteady(q: Seq, s: Node, t: TickInput)
    requires Remembered(q, s)
    ensures Steady(q, s, TickUpkeep(s, t))
  {
    hide TickExpire, Total, Restrict, OldSlots, Behind;
    ExpireSteady(q, s, t.askOrder);
  }

  lemma {:induction false} IssueSteady(q: Seq, s: Node, rs: seq<Request>)
    ensures Steady(q, s, IssueAll(s, rs))
    decreases |rs|
  {
    if rs != [] { IssueSteady(q, s, rs[..|rs| - 1]); }
  }

  lemma TickSteady(q: Seq, s: Node, t: TickInput)
    requires Remembered(q, s)
    ensures Steady(q, s, OnTick(s, t))
  {
    hide TickUpkeep, IssueAll, TickServe, Input.Plan, PickInput, Steady;
    var r := TickRefill(TickPrune(TickCursor(s.(now := s.now + t.dt), t.playHead)));
    OpeningSteady(q, s, t);
    ServeSteady(q, r, t.peerOrder);
    var v := TickServe(r, t.peerOrder);
    ServeHead(r, t.peerOrder);
    UpkeepSteady(q, v, t);
    var u := TickUpkeep(v, t);
    var plan := PickInput(u, t.peerOrder).Plan(u.win.local, t.chance);
    IssueSteady(q, u, plan);
    SteadyTrans(q, s, r, v);
    SteadyTrans(q, s, v, u);
    SteadyTrans(q, s, u, IssueAll(u, plan));
  }

  lemma OpeningSteady(q: Seq, s: Node, t: TickInput)
    ensures var r := TickRefill(TickPrune(TickCursor(s.(now := s.now + t.dt), t.playHead)));
            Steady(q, s, r) && r.edge.head == s.edge.head
  {
    hide Store.PruneBelow, BufMap.PruneBelow, BufMap.Highest;
  }

  lemma {:induction false} ServeHead(s: Node, order: seq<Peer>)
    ensures TickServe(s, order).edge == s.edge
    decreases |order|
  {
    hide ServeQueue;
    if order != [] { ServeHead(s, order[..|order| - 1]); }
  }

  lemma FallbackSteady(q: Seq, s: Node, r: Seq, bytes: Option<Bytes>, order: seq<Peer>)
    requires r in s.inflight
    ensures Steady(q, s, OnFallback(s, r, bytes, order))
  {
    hide ClearPending, DeliverVerified, BufMap.Has;
    var s1 := s.(inflight := s.inflight - {r});
    ClearSteady(q, s1, r);
    if bytes.Some? { DeliverSteady(q, ClearPending(s1, r), r, s.inflight[r], bytes.value, order); }
  }

  lemma ProducedSteady(q: Seq, s: Node, r: Seq, id: Digest, b: Bytes, order: seq<Peer>)
    ensures q != r ==> Steady(q, s, OnProduced(s, r, id, b, order))
    ensures Kept(s, OnProduced(s, r, id, b, order)) && (r, id) in OnProduced(s, r, id, b, order).hist.recorded
    ensures s.env.signs ==> r in OnProduced(s, r, id, b, order).edge.edgeSeen
    ensures Holds(OnProduced(s, r, id, b, order), r, id)
  {
    hide PushToSubscribers, Store.Insert, BufMap.Set, BufMap.Has;
    var k := Record(Keep(s, r, id, b), r, id);
    var x := if s.env.signs then See(k, r) else k;
    PushSteady(q, x, r, order);
    PushSteady(r, x, r, order);
  }

  /** Events that may happen anywhere while segment `q` is gossiped over a fixed network. */
  ghost predicate Everyday(q: Seq, s: Node, e: Event) {
    match e
    case PeerConnected(_, _) => false
    case PeerDisconnected(_) => false
    case SetPublisherKey(_) => false
    case Inbound(_, msg, _) => msg.EdgeAnnounce? ==> msg.q != q
    case Produced(r, _, _, _) => r != q
    case Tick(_) => Remembered(q, s)
    case _ => true
  }

  lemma InboundSteady(q: Seq, s: Node, p: Peer, msg: Msg, order: seq<Peer>)
    requires msg.EdgeAnnounce? ==> msg.q != q
    ensures Steady(q, s, OnInbound(s, p, msg, order))
  {
    hide OnSegmentData, ApplyEdge, OnChatter, JudgeEdge;
    match msg
    case SegmentData(r, total, offset, chunk) => SegmentDataSteady(q, s, p, r, total, offset, chunk, order);
    case EdgeAnnounce(r, id, sig) => ApplySteady(q, See(s, r), r, id, order);
    case _ => ChatterSteady(q, s, p, msg);
  }

  /** The chain edge, if it speaks of `q`, says what is on record. */
  ghost predicate ChainConfirms(q: Seq, s: Node, e: Event) {
    e.LiveEdge? && e.q == q && q in s.edge.ids ==> s.edge.ids[q] == e.id
  }

  lemma EverydaySteady(q: Seq, s: Node, e: Event)
    requires Legal(s, e) && Everyday(q, s, e)
    ensures Kept(s, Step(s, e)) && (q in Step(s, e).edge.edgeSeen <==> q in s.edge.edgeSeen)
    ensures ChainConfirms(q, s, e) ==> Steady(q, s, Step(s, e))
    ensures e.LiveEdge? && e.q == q ==> Holds(Step(s, e), q, e.id)
  {
    hide OnTick, OnInbound, ApplyEdge, OnFallback, OnProduced;
    match e
    case PeerConnected(p, refused) =>
    case PeerDisconnected(p) =>
    case Inbound(p, msg, order) => InboundSteady(q, s, p, msg, order);
    case LiveEdge(r, id, order) => ApplySteady(q, s, r, id, order);
    case Produced(r, id, b, order) => ProducedSteady(q, s, r, id, b, order);
    case Tick(t) => TickSteady(q, s, t);
    case FallbackDone(r, bytes, order) => FallbackSteady(q, s, r, bytes, order);
    case _ =>
  }
}
