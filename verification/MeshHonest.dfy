/** An honest peer is never blamed for forged bytes, whatever the others send. */
module MeshHonest {
  import opened Common
  import opened BufferMaps
  import opened Reassembly
  import opened Picker
  import opened MeshState
  import opened MeshAuthority

  /** The stream as it really is: sequence number to segment bytes. */
  type Stream = map<Seq, Bytes>

  /** Every chunk `h` sends is a true slice of the real segment, announced with its true length. */
  ghost predicate SpeaksTruth(h: Peer, real_: Stream, e: Event) {
    e.Inbound? && e.peer == h && e.msg.SegmentData? ==>
      && e.msg.q in real_ && e.msg.total == |real_[e.msg.q]|
      && e.msg.offset + |e.msg.chunk| <= |real_[e.msg.q]|
      && e.msg.chunk == real_[e.msg.q][e.msg.offset..e.msg.offset + |e.msg.chunk|]
  }

  /** Every id ever recorded for a real segment is that segment's own. */
  ghost predicate RealIds(s: Node, real_: Stream) {
    forall q, id :: (q, id) in s.hist.recorded && q in real_ ==> id == s.env.crypto.hash(real_[q])
  }

  ghost predicate SlotTrue(e: Slot, data: Bytes) { e.r.total == |data| && SlicesOf(e.r.chunks, data) }

  /** `h`'s slots and parked bytes hold only the truth, and it has never been charged with a forgery. */
  ghost predicate HonestInv(s: Node, h: Peer, real_: Stream) {
    && (forall k :: k in s.asm.reasm && k.0 == h ==> k.1 in real_ && SlotTrue(s.asm.reasm[k], real_[k.1]))
    && (forall q :: q in s.park.parked && s.park.parked[q].peer == h ==> q in real_ && s.park.parked[q].raw == real_[q])
    && Charged(h, HashFail) !in s.hist.conduct
  }

  /** `t` buffers no more for `h` and has not charged it with a forgery. */
  ghost predicate NoBlame(s: Node, t: Node, h: Peer) {
    && t.env == s.env
    && (forall k :: k in t.asm.reasm && k.0 == h ==> k in s.asm.reasm && t.asm.reasm[k] == s.asm.reasm[k])
    && (forall q :: q in t.park.parked && t.park.parked[q].peer == h ==>
          q in s.park.parked && t.park.parked[q] == s.park.parked[q])
    && (Charged(h, HashFail) in t.hist.conduct ==> Charged(h, HashFail) in s.hist.conduct)
  }

  lemma HonestFrame(s: Node, t: Node, h: Peer, real_: Stream)
    requires HonestInv(s, h, real_) && NoBlame(s, t, h)
    ensures HonestInv(t, h, real_)
  {}

  lemma PenalizeNoBlame(s: Node, p: Peer, why: Penalty, h: Peer)
    requires p != h || why != HashFail
    ensures NoBlame(s, Penalize(s, p, why), h)
  {
    hide Total, Restrict, Buffered;
  }

  lemma AcceptNoBlame(s: Node, p: Peer, q: Seq, id: Digest, b: Bytes, order: seq<Peer>, h: Peer)
    ensures NoBlame(s, AcceptSegment(s, p, q, id, b, order), h)
  {
    hide SegmentStores.Store.Insert, SegmentStores.Store.Get, PushLedger, Targets, BufMap.Set, ClearPending;
    ClearNoBlame(s, q, h);
  }

  lemma ClearNoBlame(s: Node, q: Seq, h: Peer)
    ensures NoBlame(s, ClearPending(s, q), h) && ClearPending(s, q).edge == s.edge
  {}

  /** Parked bytes of an honest peer verify as soon as the id arrives. */
  lemma ApplyEdgeHonest(s: Node, q: Seq, id: Digest, order: seq<Peer>, h: Peer, real_: Stream)
    requires HonestInv(s, h, real_) && (q in real_ ==> id == s.env.crypto.hash(real_[q]))
    ensures HonestInv(ApplyEdge(s, q, id, order), h, real_)
  {
    hide AcceptSegment, Penalize;
    var r := Record(s, q, id);
    HonestFrame(s, r, h, real_);
    if q in r.park.parked {
      var u, p, raw := Unpark(r, q), r.park.parked[q].peer, r.park.parked[q].raw;
      HonestFrame(r, u, h, real_);
      AcceptNoBlame(u, p, q, id, raw, order, h);
      HonestFrame(u, AcceptSegment(u, p, q, id, raw, order), h, real_);
      if p != h {
        PenalizeNoBlame(u, p, HashFail, h);
        HonestFrame(u, Penalize(u, p, HashFail), h, real_);
      }
    }
  }

  lemma CompletedHonest(s: Node, p: Peer, q: Seq, r: Reasm, order: seq<Peer>, h: Peer, real_: Stream)
    requires HonestInv(s, h, real_) && r.Complete()
    requires p == h ==> q in real_ && r.Assembled() == real_[q]
    requires q in s.edge.ids && q in real_ ==> s.edge.ids[q] == s.env.crypto.hash(real_[q])
    ensures HonestInv(Completed(s, p, q, r, order), h, real_)
  {
    hide AcceptSegment, Penalize, ClearPending, Reasm.Complete, Reasm.Assembled;
    ClearNoBlame(s, q, h);
    var c := ClearPending(s, q);
    HonestFrame(s, c, h, real_);
    if q in s.edge.ids {
      AcceptNoBlame(s, p, q, s.edge.ids[q], r.Assembled(), order, h);
      HonestFrame(s, AcceptSegment(s, p, q, s.edge.ids[q], r.Assembled(), order), h, real_);
      if p != h {
        PenalizeNoBlame(c, p, HashFail, h);
        HonestFrame(c, Penalize(c, p, HashFail), h, real_);
      }
    }
  }

  lemma BufferChunkHonest(s: Node, p: Peer, q: Seq, total: nat, offset: nat, chunk: Bytes, h: Peer, real_: Stream)
    requires HonestInv(s, h, real_)
    requires p == h ==> q in real_ && total == |real_[q]| && offset + |chunk| <= |real_[q]|
                        && chunk == real_[q][offset..offset + |chunk|]
    ensures HonestInv(BufferChunk(s, (p, q), total, offset, chunk), h, real_)
  {}

  lemma SegmentDataHonest(s: Node, p: Peer, q: Seq, total: nat, offset: nat, chunk: Bytes, order: seq<Peer>, h: Peer,
                          real_: Stream)
    requires HonestInv(s, h, real_) && Recorded(s, s.edge.ids) && RealIds(s, real_)
    requires p == h ==> q in real_ && total == |real_[q]| && offset + |chunk| <= |real_[q]|
                        && chunk == real_[q][offset..offset + |chunk|]
    ensures HonestInv(OnSegmentData(s, p, q, total, offset, chunk, order), h, real_)
  {
    hide Completed, Penalize, SlotRefused, Spray, Asked, InPushWindow, Total, Restrict, Reasm.Complete,
        Reasm.Assembled, SlicesOf;
    PenalizeNoBlame(s, p, ProtocolAbuse, h);
    HonestFrame(s, Penalize(s, p, ProtocolAbuse), h, real_);
    BufferChunkHonest(s, p, q, total, offset, chunk, h, real_);
    var s1 := BufferChunk(s, (p, q), total, offset, chunk);
    var r := s1.asm.reasm[(p, q)].r;
    if r.Complete() {
      var s2 := DropSlots(s1, {(p, q)});
      HonestFrame(s1, s2, h, real_);
      if p == h { CompleteSlicesAssemble(r, real_[q]); AssembleDefinition(r); }
      CompletedHonest(s2, p, q, r, order, h, real_);
    }
  }

  lemma AssembleDefinition(r: Reasm)
    requires r.Complete()
    ensures r.Assemble() == Some(r.Assembled())
  {}

  lemma {:induction false} ServeNoBlame(s: Node, order: seq<Peer>, h: Peer)
    ensures NoBlame(s, TickServe(s, order), h)
    decreases |order|
  {
    hide ServeQueue;
    if order != [] { ServeNoBlame(s, order[..|order| - 1], h); }
  }

  lemma {:induction false} ExpireNoBlame(s: Node, order: seq<Seq>, h: Peer)
    ensures NoBlame(s, TickExpire(s, order), h)
    decreases |order|
  {
    hide ClearPending, Penalize, Total, Restrict;
    if order != [] {
      ExpireNoBlame(s, order[..|order| - 1], h);
      var t, q := TickExpire(s, order[..|order| - 1]), order[|order| - 1];
      if Stale(t, q) {
        ClearNoBlame(t, q, h);
        var p := t.flight.pending[q].peer;
        PenalizeNoBlame(DropSlots(ClearPending(t, q), {(p, q)}), p, Timeout, h);
      }
    }
  }

  lemma UpkeepNoBlame(s: Node, t: TickInput, h: Peer)
    ensures NoBlame(s, TickUpkeep(s, t), h)
  {
    hide TickExpire, Total, Restrict;
    ExpireNoBlame(s, t.askOrder, h);
  }

  lemma {:induction false} IssueNoBlame(s: Node, rs: seq<Request>, h: Peer)
    ensures NoBlame(s, IssueAll(s, rs), h)
    decreases |rs|
  {
    if rs != [] { IssueNoBlame(s, rs[..|rs| - 1], h); }
  }

  lemma TickHonest(s: Node, t: TickInput, h: Peer, real_: Stream)
    requires HonestInv(s, h, real_)
    ensures HonestInv(OnTick(s, t), h, real_)
  {
    hide HonestInv, TickUpkeep, IssueAll, TickServe, Input.Plan, PickInput, TickPrune;
    var c := TickCursor(s.(now := s.now + t.dt), t.playHead);
    PruneNoBlame(c, h);
    var r := TickRefill(TickPrune(c));
    ServeNoBlame(r, t.peerOrder, h);
    var v := TickServe(r, t.peerOrder);
    UpkeepNoBlame(v, t, h);
    var u := TickUpkeep(v, t);
    IssueNoBlame(u, PickInput(u, t.peerOrder).Plan(u.win.local, t.chance), h);
    HonestFrame(s, OnTick(s, t), h, real_);
  }

  lemma PruneNoBlame(s: Node, h: Peer)
    ensures NoBlame(s, TickPrune(s), h)
  {}

  lemma ChatterNoBlame(s: Node, p: Peer, msg: Msg, h: Peer)
    ensures NoBlame(s, OnChatter(s, p, msg), h)
  {
    hide Penalize, Enqueue;
    PenalizeNoBlame(s, p, ProtocolAbuse, h);
  }

  lemma InboundHonest(s: Node, p: Peer, msg: Msg, order: seq<Peer>, h: Peer, real_: Stream)
    requires HonestInv(s, h, real_) && Recorded(s, s.edge.ids) && RealIds(s, real_)
    requires RealIds(OnInbound(s, p, msg, order), real_) && SpeaksTruth(h, real_, Inbound(p, msg, order))
    ensures HonestInv(OnInbound(s, p, msg, order), h, real_)
  {
    hide HonestInv, OnSegmentData, ApplyEdge, OnChatter, NoBlame;
    match msg
    case SegmentData(q, total, offset, chunk) => SegmentDataHonest(s, p, q, total, offset, chunk, order, h, real_);
    case EdgeAnnounce(q, id, sig) =>
      SeeNoBlame(s, q, h);
      HonestFrame(s, See(s, q), h, real_);
      if OnInbound(s, p, msg, order) == ApplyEdge(See(s, q), q, id, order) {
        ApplyEdgeRecords(See(s, q), q, id, order);
        assert (q, id) in OnInbound(s, p, msg, order).hist.recorded;
        ApplyEdgeHonest(See(s, q), q, id, order, h, real_);
      }
    case _ => ChatterNoBlame(s, p, msg, h); HonestFrame(s, OnChatter(s, p, msg), h, real_);
  }

  lemma SeeNoBlame(s: Node, q: Seq, h: Peer)
    ensures NoBlame(s, See(s, q), h)
  {}

  lemma ApplyEdgeRecords(s: Node, q: Seq, id: Digest, order: seq<Peer>)
    ensures ApplyEdge(s, q, id, order).hist.recorded == s.hist.recorded + {(q, id)}
    ensures ApplyEdge(s, q, id, order).env == s.env
  {
    hide AcceptSegment, Penalize;
    var r := Record(s, q, id);
    if q in r.park.parked {
      var u, p, raw := Unpark(r, q), r.park.parked[q].peer, r.park.parked[q].raw;
      PenalizeNothing(u, p, HashFail);
      AcceptRecords(u, p, q, id, raw, order);
    }
  }

  lemma AcceptRecords(s: Node, p: Peer, q: Seq, id: Digest, b: Bytes, order: seq<Peer>)
    ensures AcceptSegment(s, p, q, id, b, order).hist.recorded == s.hist.recorded
    ensures AcceptSegment(s, p, q, id, b, order).env == s.env
  {
    hide SegmentStores.Store.Insert, SegmentStores.Store.Get, PushLedger, Targets, BufMap.Set, ClearPending;
    ClearNothing(s, q);
  }

  lemma FallbackNoBlame(s: Node, q: Seq, bytes: Option<Bytes>, order: seq<Peer>, h: Peer)
    requires q in s.inflight
    ensures NoBlame(s, OnFallback(s, q, bytes, order), h)
  {
    hide ClearPending, SegmentStores.Store.Insert, SegmentStores.Store.Get, PushLedger, Targets, BufMap.Set;
    ClearNoBlame(s.(inflight := s.inflight - {q}), q, h);
  }

  lemma StepHonest(s: Node, e: Event, h: Peer, real_: Stream)
    requires HonestInv(s, h, real_) && Legal(s, e)
    requires Recorded(s, s.edge.ids) && RealIds(s, real_) && RealIds(Step(s, e), real_) && SpeaksTruth(h, real_, e)
    ensures HonestInv(Step(s, e), h, real_)
  {
    hide HonestInv, OnTick, OnInbound, ApplyEdge, OnDisconnected, OnFallback, Keep, PushLedger, Targets, Recorded;
    match e
    case PeerDisconnected(p) => DisconnectNoBlame(s, p, h); HonestFrame(s, OnDisconnected(s, p), h, real_);
    case Inbound(p, msg, order) => InboundHonest(s, p, msg, order, h, real_);
    case LiveEdge(q, id, order) =>
      ApplyEdgeRecords(s, q, id, order);
      assert (q, id) in Step(s, e).hist.recorded;
      ApplyEdgeHonest(s, q, id, order, h, real_);
    case Produced(q, id, b, order) => KeepNoBlame(s, q, id, b, h); HonestFrame(s, Step(s, e), h, real_);
    case Tick(t) => TickHonest(s, t, h, real_);
    case FallbackDone(q, bytes, order) => FallbackNoBlame(s, q, bytes, order, h); HonestFrame(s, Step(s, e), h, real_);
    case _ => HonestFrame(s, Step(s, e), h, real_);
  }

  lemma KeepNoBlame(s: Node, q: Seq, id: Digest, b: Bytes, h: Peer)
    ensures NoBlame(s, Keep(s, q, id, b), h)
  {}

  lemma DisconnectNoBlame(s: Node, p: Peer, h: Peer)
    ensures NoBlame(s, OnDisconnected(s, p), h)
  {
    hide Total, Restrict, SlotsOf;
  }
}
