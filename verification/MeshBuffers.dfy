/** Memory bounds over every run: reassembly slots and parked bytes are counted exactly,
    stay within their caps, and drain when nothing arrives. */
module MeshBuffers {
  import opened Common
  import opened BufferMaps
  import opened Reassembly
  import opened Picker
  import opened MeshState

  ghost predicate SlotOk(e: Slot, now: nat) {
    e.r.Ok() && 0 < e.r.total <= MAX_SEGMENT_BYTES && e.created <= now
  }

  ghost predicate SlotsInv(s: Node) {
    && s.asm.reasmBytes == Total(Buffered(s.asm.reasm))
    && |s.asm.reasm| <= MAX_REASM
    && (forall k :: k in s.asm.reasm ==> SlotOk(s.asm.reasm[k], s.now))
  }

  ghost predicate ParkInv(park: ParkingLot) {
    park.parkedBytes == Total(ParkedLengths(park.parked)) <= MAX_PENDING_VERIFY_BYTES
  }

  ghost predicate BufferInv(s: Node) { SlotsInv(s) && ParkInv(s.park) }

  /** Every slot is younger than the completion deadline. */
  ghost predicate AllYoung(s: Node) {
    forall k :: k in s.asm.reasm ==> s.now < s.asm.reasm[k].created + REASM_TTL_MS
  }

  /** `t`'s slots are among `s`'s, unchanged. */
  ghost predicate Fewer(s: Node, t: Node) {
    t.now >= s.now && forall k :: k in t.asm.reasm ==> k in s.asm.reasm && t.asm.reasm[k] == s.asm.reasm[k]
  }

  ghost predicate SameBuffers(s: Node, t: Node) { t.asm == s.asm && t.park == s.park && t.now >= s.now }

  lemma BufferFrame(s: Node, t: Node)
    requires BufferInv(s) && SameBuffers(s, t)
    ensures BufferInv(t) && Fewer(s, t)
  {}

  /** The real bound on buffered bytes: every slot can fill up to its announced size. */
  lemma ReassemblyBound(s: Node)
    requires BufferInv(s)
    ensures s.asm.reasmBytes <= MAX_REASM * MAX_SEGMENT_BYTES
    ensures forall k :: k in s.asm.reasm ==> s.asm.reasm[k].r.buffered <= s.asm.reasm[k].r.total
  {
    var m := Buffered(s.asm.reasm);
    assert m.Keys == s.asm.reasm.Keys;
    TotalBound(m, MAX_SEGMENT_BYTES);
  }

  // ---- slots ----

  lemma BufferedDrop(m: map<(Peer, Seq), Slot>, ks: set<(Peer, Seq)>)
    ensures Total(Buffered(m)) == Total(Restrict(Buffered(m), ks)) + Total(Buffered(m - ks))
    ensures |m - ks| <= |m|
  {
    hide Total;
    assert Buffered(m - ks) == Buffered(m) - ks;
    hide Buffered, Restrict;
    TotalSplit(Buffered(m), ks);
    MinusSize(m, ks);
  }

  lemma MinusSize<K, V>(m: map<K, V>, ks: set<K>)
    ensures |m - ks| <= |m|
  {
    assert (m - ks).Keys == m.Keys - ks;
    assert m.Keys == (m.Keys - ks) + (m.Keys * ks);
  }

  /** Returning slots gives back exactly what they held. */
  lemma DropSlotsInv(s: Node, ks: set<(Peer, Seq)>)
    requires BufferInv(s)
    ensures BufferInv(DropSlots(s, ks)) && Fewer(s, DropSlots(s, ks))
    ensures DropSlots(s, ks).asm.reasmBytes == Total(Buffered(s.asm.reasm - ks))
  {
    hide Total, Restrict, Buffered, ParkInv, SlotOk;
    BufferedDrop(s.asm.reasm, ks);
  }

  lemma BufferedPut(m: map<(Peer, Seq), Slot>, k: (Peer, Seq), e: Slot)
    ensures Total(Buffered(m[k := e])) == Total(Buffered(m)) - (if k in m then m[k].r.buffered else 0) + e.r.buffered
    ensures |m[k := e]| == |m| + (if k in m then 0 else 1)
  {
    hide Total;
    BufferedAt(m, k, e);
    assert k in Buffered(m) <==> k in m;
    assert k in m ==> Buffered(m)[k] == m[k].r.buffered;
    hide Buffered;
    TotalPut(Buffered(m), k, e.r.buffered);
    PutSize(m, k, e);
  }

  lemma BufferedAt(m: map<(Peer, Seq), Slot>, k: (Peer, Seq), e: Slot)
    ensures Buffered(m[k := e]) == Buffered(m)[k := e.r.buffered]
  {}

  lemma PutSize<K, V>(m: map<K, V>, k: K, v: V)
    ensures |m[k := v]| == |m| + (if k in m then 0 else 1)
  {
    assert m[k := v].Keys == m.Keys + {k};
  }

  lemma BufferChunkInv(s: Node, k: (Peer, Seq), total: nat, offset: nat, chunk: Bytes)
    requires BufferInv(s) && !SlotRefused(s, k, total) && 0 < total <= MAX_SEGMENT_BYTES
    ensures BufferInv(BufferChunk(s, k, total, offset, chunk))
  {
    hide Total, Buffered, ParkInv, Reasm.Add, Reasm.Ok;
    var e := SlotAt(s, k, total);
    FreshOk(total);
    AddKeepsOk(e.r, offset, chunk);
    AddKeepsTotal(e.r, offset, chunk);
    BufferedPut(s.asm.reasm, k, e.(r := e.r.Add(offset, chunk)));
  }

  lemma AddKeepsTotal(r: Reasm, offset: nat, chunk: Bytes)
    ensures r.Add(offset, chunk).total == r.total
  {}

  // ---- parked bytes ----

  lemma LengthsPut(m: map<Seq, Parked>, q: Seq, v: Parked)
    requires q !in m
    ensures Total(ParkedLengths(m[q := v])) == Total(ParkedLengths(m)) + |v.raw|
  {
    hide Total;
    TotalPut(ParkedLengths(m), q, |v.raw|);
    assert ParkedLengths(m[q := v]) == ParkedLengths(m)[q := |v.raw|];
  }

  lemma ParkKeeps(s: Node, p: Peer, q: Seq, raw: Bytes)
    requires BufferInv(s)
    ensures BufferInv(Park(s, p, q, raw)) && Fewer(s, Park(s, p, q, raw))
  {
    hide Total, ParkedLengths, Buffered;
    if q !in s.park.parked { LengthsPut(s.park.parked, q, Parked(p, raw)); }
  }

  lemma LengthsDrop(m: map<Seq, Parked>, qs: set<Seq>)
    ensures Total(ParkedLengths(m)) == Total(Restrict(ParkedLengths(m), qs)) + Total(ParkedLengths(m - qs))
  {
    hide Total;
    TotalSplit(ParkedLengths(m), qs);
    assert ParkedLengths(m - qs) == ParkedLengths(m) - qs;
  }

  lemma UnparkKeeps(s: Node, q: Seq)
    requires BufferInv(s) && q in s.park.parked
    ensures BufferInv(Unpark(s, q)) && Fewer(s, Unpark(s, q))
  {
    hide Total;
    TotalTake(ParkedLengths(s.park.parked), q);
    assert ParkedLengths(s.park.parked - {q}) == ParkedLengths(s.park.parked) - {q};
  }

  lemma TickUnparkKeeps(s: Node)
    requires BufferInv(s)
    ensures BufferInv(TickUnpark(s)) && Fewer(s, TickUnpark(s))
    ensures TickUnpark(s).asm == s.asm && TickUnpark(s).now == s.now
  {
    hide Total, ParkedLengths, Buffered, Restrict, Behind;
    LengthsDrop(s.park.parked, Behind(s));
  }

  // ---- composite operations ----

  lemma PenalizeBuffers(s: Node, p: Peer, why: Penalty)
    requires BufferInv(s)
    ensures BufferInv(Penalize(s, p, why)) && Fewer(s, Penalize(s, p, why))
  {
    hide SlotsInv, ParkInv, DropSlots, SlotsOf;
    if p in s.peers {
      var s1 := Charge(s, p, why);
      BufferFrame(s, s1);
      var s2 := Note(s1, Banned(p)).(subscribers := s.subscribers - {p});
      BufferFrame(s, s2);
      DropSlotsInv(s2, SlotsOf(s, p));
    }
  }

  lemma AcceptSameBuffers(s: Node, p: Peer, q: Seq, id: Digest, b: Bytes, order: seq<Peer>)
    ensures SameBuffers(s, AcceptSegment(s, p, q, id, b, order))
  {
    assert SameBuffers(s, ClearPending(s, q));
  }

  lemma TryVerifyBuffers(s: Node, q: Seq, order: seq<Peer>)
    requires BufferInv(s)
    ensures BufferInv(TryVerifyParked(s, q, order)) && Fewer(s, TryVerifyParked(s, q, order))
  {
    hide SlotsInv, ParkInv, AcceptSegment, Penalize, Unpark;
    if q in s.park.parked {
      var s1 := Unpark(s, q);
      UnparkKeeps(s, q);
      var p, raw := s.park.parked[q].peer, s.park.parked[q].raw;
      if q in s.edge.ids {
        AcceptSameBuffers(s1, p, q, s.edge.ids[q], raw, order);
        BufferFrame(s1, AcceptSegment(s1, p, q, s.edge.ids[q], raw, order));
      }
      PenalizeBuffers(s1, p, HashFail);
    }
  }

  lemma ApplyEdgeBuffers(s: Node, q: Seq, id: Digest, order: seq<Peer>)
    requires BufferInv(s)
    ensures BufferInv(ApplyEdge(s, q, id, order)) && Fewer(s, ApplyEdge(s, q, id, order))
  {
    hide SlotsInv, ParkInv, TryVerifyParked;
    BufferFrame(s, Record(s, q, id));
    TryVerifyBuffers(Record(s, q, id), q, order);
  }

  lemma CompletedBuffers(s: Node, p: Peer, q: Seq, r: Reasm, order: seq<Peer>)
    requires BufferInv(s)
    ensures BufferInv(Completed(s, p, q, r, order)) && Fewer(s, Completed(s, p, q, r, order))
  {
    hide SlotsInv, ParkInv, AcceptSegment, Penalize, ClearPending, Park;
    var c := ClearPending(s, q);
    ClearSameBuffers(s, q);
    BufferFrame(s, c);
    if q in s.edge.ids {
      AcceptSameBuffers(s, p, q, s.edge.ids[q], r.Assembled(), order);
      BufferFrame(s, AcceptSegment(s, p, q, s.edge.ids[q], r.Assembled(), order));
    }
    PenalizeBuffers(c, p, HashFail);
    ParkKeeps(c, p, q, r.Assembled());
  }

  lemma ClearSameBuffers(s: Node, q: Seq)
    ensures SameBuffers(s, ClearPending(s, q)) && ClearPending(s, q).edge == s.edge
  {}

  lemma SegmentDataBuffers(s: Node, p: Peer, q: Seq, total: nat, offset: nat, chunk: Bytes, order: seq<Peer>)
    requires BufferInv(s)
    ensures BufferInv(OnSegmentData(s, p, q, total, offset, chunk, order))
  {
    hide SlotsInv, ParkInv, Completed, Penalize, DropSlots, Fewer, SlotRefused;
    PenalizeBuffers(s, p, ProtocolAbuse);
    if 0 < total <= MAX_SEGMENT_BYTES && !SlotRefused(s, (p, q), total) {
      BufferChunkInv(s, (p, q), total, offset, chunk);
      var s1 := BufferChunk(s, (p, q), total, offset, chunk);
      DropSlotsInv(s1, {(p, q)});
      CompletedBuffers(DropSlots(s1, {(p, q)}), p, q, s1.asm.reasm[(p, q)].r, order);
    }
  }

  lemma DisconnectBuffers(s: Node, p: Peer)
    requires BufferInv(s)
    ensures BufferInv(OnDisconnected(s, p)) && Fewer(s, OnDisconnected(s, p))
  {
    hide SlotsInv, ParkInv, DropSlots, SlotsOf, Promoted, Unhedged;
    var t := s.(links := s.links - {p}, peers := s.peers - {p}, subscribers := s.subscribers - {p},
                flight := Flight(Promoted(s.flight.pending, s.flight.hedge, p),
                    Unhedged(s.flight.pending, s.flight.hedge, p)));
    BufferFrame(s, t);
    DropSlotsInv(t, SlotsOf(s, p));
  }

  // ---- the tick ----

  lemma {:induction false} ServeBuffers(s: Node, order: seq<Peer>)
    ensures SameBuffers(s, TickServe(s, order))
    decreases |order|
  {
    if order != [] { ServeBuffers(s, order[..|order| - 1]); }
  }

  lemma ExpireOneBuffers(s: Node, q: Seq)
    requires BufferInv(s)
    ensures BufferInv(ExpireOne(s, q)) && Fewer(s, ExpireOne(s, q))
  {
    hide SlotsInv, ParkInv, DropSlots, Penalize, ClearPending;
    if Stale(s, q) {
      var p := s.flight.pending[q].peer;
      ClearSameBuffers(s, q);
      var c := ClearPending(s, q);
      BufferFrame(s, c);
      DropSlotsInv(c, {(p, q)});
      PenalizeBuffers(DropSlots(c, {(p, q)}), p, Timeout);
    }
  }

  lemma {:induction false} ExpireBuffers(s: Node, order: seq<Seq>)
    requires BufferInv(s)
    ensures BufferInv(TickExpire(s, order)) && Fewer(s, TickExpire(s, order))
    decreases |order|
  {
    hide SlotsInv, ParkInv, ExpireOne;
    if order != [] {
      ExpireBuffers(s, order[..|order| - 1]);
      ExpireOneBuffers(TickExpire(s, order[..|order| - 1]), order[|order| - 1]);
    }
  }

  /** The sweep leaves only slots younger than their deadline. */
  lemma UpkeepBuffers(s: Node, t: TickInput)
    requires BufferInv(s)
    ensures BufferInv(TickUpkeep(s, t)) && Fewer(s, TickUpkeep(s, t)) && AllYoung(TickUpkeep(s, t))
  {
    hide SlotsInv, ParkInv, TickExpire, TickUnpark, Total, Restrict;
    var e := TickExpire(s, t.askOrder);
    ExpireBuffers(s, t.askOrder);
    var d := DropSlots(e, OldSlots(e));
    DropSlotsInv(e, OldSlots(e));
    assert AllYoung(d);
    TickUnparkKeeps(d);
    var u := TickUnpark(d);
    BufferFrame(u, TickChoke(TickTrim(u), t.unchoked));
  }

  lemma {:induction false} IssueBuffers(s: Node, rs: seq<Request>)
    ensures SameBuffers(s, IssueAll(s, rs)) && IssueAll(s, rs).now == s.now
    decreases |rs|
  {
    if rs != [] { IssueBuffers(s, rs[..|rs| - 1]); }
  }

  lemma TickBuffers(s: Node, t: TickInput)
    requires BufferInv(s)
    ensures BufferInv(OnTick(s, t)) && Fewer(s, OnTick(s, t)) && AllYoung(OnTick(s, t))
  {
    hide SlotsInv, ParkInv, TickUpkeep, IssueAll, TickServe, Input.Plan, PickInput;
    var r := TickRefill(TickPrune(TickCursor(s.(now := s.now + t.dt), t.playHead)));
    BufferFrame(s, r);
    ServeBuffers(r, t.peerOrder);
    BufferFrame(r, TickServe(r, t.peerOrder));
    UpkeepBuffers(TickServe(r, t.peerOrder), t);
    var u := TickUpkeep(TickServe(r, t.peerOrder), t);
    IssueBuffers(u, PickInput(u, t.peerOrder).Plan(u.win.local, t.chance));
    BufferFrame(u, OnTick(s, t));
  }

  // ---- every step ----

  lemma ChatterBuffers(s: Node, p: Peer, msg: Msg)
    requires BufferInv(s)
    ensures BufferInv(OnChatter(s, p, msg)) && Fewer(s, OnChatter(s, p, msg))
  {
    hide SlotsInv, ParkInv, Penalize, Enqueue;
    PenalizeBuffers(s, p, ProtocolAbuse);
    match msg
    case BufferMapMsg(base, bits) =>
      if |bits| <= MAX_BITFIELD_BYTES { BufferFrame(s, OnBufferMap(s, p, base, bits)); }
    case Want(seqs) => if |seqs| <= MAX_WANT_SEQS { BufferFrame(s, OnWant(s, p, seqs)); }
    case _ => BufferFrame(s, OnPeerNote(s, p, msg));
  }

  lemma InboundBuffers(s: Node, p: Peer, msg: Msg, order: seq<Peer>)
    requires BufferInv(s)
    ensures BufferInv(OnInbound(s, p, msg, order))
    ensures !msg.SegmentData? ==> Fewer(s, OnInbound(s, p, msg, order))
  {
    hide SlotsInv, ParkInv, OnSegmentData, ApplyEdge, OnChatter;
    match msg
    case SegmentData(q, total, offset, chunk) => SegmentDataBuffers(s, p, q, total, offset, chunk, order);
    case EdgeAnnounce(q, id, sig) =>
      BufferFrame(s, See(s, q));
      ApplyEdgeBuffers(See(s, q), q, id, order);
    case _ => ChatterBuffers(s, p, msg);
  }

  lemma FallbackBuffers(s: Node, q: Seq, bytes: Option<Bytes>, order: seq<Peer>)
    requires q in s.inflight
    ensures SameBuffers(s, OnFallback(s, q, bytes, order))
  {
    ClearSameBuffers(s.(inflight := s.inflight - {q}), q);
    hide ClearPending;
  }

  ghost predicate Silent(e: Event) { !(e.Inbound? && e.msg.SegmentData?) }

  lemma StepBuffers(s: Node, e: Event)
    requires BufferInv(s) && Legal(s, e)
    ensures BufferInv(Step(s, e))
    ensures Silent(e) ==> Fewer(s, Step(s, e))
    ensures e.Tick? ==> AllYoung(Step(s, e))
  {
    hide SlotsInv, ParkInv, OnTick, OnInbound, ApplyEdge, OnDisconnected, OnFallback, AllYoung;
    match e
    case PeerDisconnected(p) => DisconnectBuffers(s, p);
    case Inbound(p, msg, order) => InboundBuffers(s, p, msg, order);
    case LiveEdge(q, id, order) => ApplyEdgeBuffers(s, q, id, order);
    case Tick(t) => TickBuffers(s, t);
    case FallbackDone(q, bytes, order) =>
      FallbackBuffers(s, q, bytes, order);
      BufferFrame(s, Step(s, e));
    case _ => BufferFrame(s, Step(s, e));
  }
}
