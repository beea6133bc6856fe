/** Delivery over every run: a segment reaches the sink at most once, the delivered window
    slides but never empties, and parked bytes are exactly those whose id is unknown. */
module MeshDelivery {
  import opened Common
  import opened BufferMaps
  import opened Reassembly
  import opened SegmentStores
  import opened Picker
  import opened MeshState
  import opened MeshFlight

  ghost function Seqs(sink: seq<(Seq, Bytes)>): set<Seq> { set i | 0 <= i < |sink| :: sink[i].0 }

  ghost function Delivered(s: Node): set<Seq> { Seqs(s.hist.sink) }

  ghost predicate Distinct(sink: seq<(Seq, Bytes)>) {
    forall i, j :: 0 <= i < j < |sink| ==> sink[i].0 != sink[j].0
  }

  /** The cursors and the local map agree; numbers fit the wire type. */
  ghost predicate WindowInv(s: Node) {
    && s.win.local.base == s.win.floor <= s.win.play <= U64_MAX
    && s.edge.head <= U64_MAX
    && s.win.local.base + |s.win.local.bits| <= U64_MAX + 1
  }

  /** Whatever was delivered is held or has slid below the window; nothing delivered is asked for or parked. */
  ghost predicate OnceInv(s: Node) {
    && Distinct(s.hist.sink)
    && s.win.deliveredTotal == |s.hist.sink|
    && (forall q :: q in Delivered(s) ==> s.win.local.Has(q) || q < s.win.local.base)
    && (forall q: Seq :: s.win.local.Has(q) ==> q in Delivered(s))
    && s.flight.pending.Keys !! Delivered(s)
    && s.park.parked.Keys !! Delivered(s)
  }

  /** Only bytes whose id is unknown are parked. */
  ghost predicate ParkedUnknown(s: Node) { s.park.parked.Keys !! s.edge.ids.Keys }

  /** `t` has delivered the same, holds the same, and waits for no more than `s`. */
  ghost predicate NoMoreWanted(s: Node, t: Node) {
    && t.win == s.win && t.hist.sink == s.hist.sink && t.edge.head == s.edge.head
    && t.edge.ids.Keys <= s.edge.ids.Keys
    && t.flight.pending.Keys <= s.flight.pending.Keys && t.park.parked.Keys <= s.park.parked.Keys
  }

  ghost predicate DeliveryInv(s: Node) { WindowInv(s) && OnceInv(s) && ParkedUnknown(s) }

  lemma WantedFrame(s: Node, t: Node)
    requires NoMoreWanted(s, t) && WindowInv(s) && OnceInv(s)
    ensures WindowInv(t) && OnceInv(t) && (ParkedUnknown(s) ==> ParkedUnknown(t))
  {}

  // ---- building blocks ----

  lemma ClearWanted(s: Node, q: Seq)
    ensures NoMoreWanted(s, ClearPending(s, q)) && ClearPending(s, q).park == s.park
    ensures ClearPending(s, q).edge == s.edge && q !in ClearPending(s, q).flight.pending
  {}

  lemma PenalizeWanted(s: Node, p: Peer, why: Penalty)
    ensures NoMoreWanted(s, Penalize(s, p, why))
  {}

  lemma LocalSetHas(m: BufMap, q: Seq)
    ensures m.Set(q).base == m.base
    ensures forall x: Seq :: m.Set(q).Has(x) <==> m.Has(x) || (x == q && q >= m.base)
    ensures q <= U64_MAX && m.base + |m.bits| <= U64_MAX + 1 ==> m.base + |m.Set(q).bits| <= U64_MAX + 1
  {}

  lemma SinkAppend(sink: seq<(Seq, Bytes)>, q: Seq, b: Bytes)
    ensures Seqs(sink + [(q, b)]) == Seqs(sink) + {q}
    ensures Distinct(sink) && q !in Seqs(sink) ==> Distinct(sink + [(q, b)])
  {
    var t := sink + [(q, b)];
    forall x ensures x in Seqs(t) <==> x in Seqs(sink) || x == q {
      if x in Seqs(sink) {
        var i :| 0 <= i < |sink| && sink[i].0 == x;
        assert t[i].0 == x;
      }
      if x == q { assert t[|sink|].0 == q; }
    }
    if Distinct(sink) && q !in Seqs(sink) {
      forall i, j | 0 <= i < j < |t| ensures t[i].0 != t[j].0 {
        if j == |sink| { assert sink[i].0 in Seqs(sink); }
      }
    }
  }

  /** The whole effect of a delivery on what this module looks at. */
  lemma DeliverEffect(s: Node, q: Seq, id: Digest, b: Bytes, order: seq<Peer>)
    ensures var t := DeliverVerified(s, q, id, b, order);
      && t.hist.sink == s.hist.sink + [(q, b)] && t.flight == s.flight && t.park == s.park && t.edge == s.edge
      && t.win.local == s.win.local.Set(q) && t.win.play == s.win.play && t.win.floor == s.win.floor
      && t.win.deliveredTotal == s.win.deliveredTotal + (if s.win.local.Has(q) then 0 else 1)
  {
    hide Store.Insert, Store.Get, PushLedger, Targets;
  }

  /** A verified segment that is neither delivered, asked for nor parked any more is delivered once. */
  lemma DeliverOnce(s: Node, q: Seq, id: Digest, b: Bytes, order: seq<Peer>)
    requires WindowInv(s) && OnceInv(s) && q <= U64_MAX
    requires q !in Delivered(s) && q !in s.flight.pending && q !in s.park.parked
    ensures var t := DeliverVerified(s, q, id, b, order);
      WindowInv(t) && OnceInv(t) && (ParkedUnknown(s) ==> ParkedUnknown(t))
  {
    hide DeliverVerified, BufMap.Set, Distinct, Seqs;
    DeliverEffect(s, q, id, b, order);
    LocalSetHas(s.win.local, q);
    SinkAppend(s.hist.sink, q, b);
  }

  lemma AcceptOnce(s: Node, p: Peer, q: Seq, id: Digest, b: Bytes, order: seq<Peer>)
    requires WindowInv(s) && OnceInv(s) && q <= U64_MAX
    requires q !in Delivered(s) && q !in s.park.parked
    ensures var t := AcceptSegment(s, p, q, id, b, order);
      WindowInv(t) && OnceInv(t) && (ParkedUnknown(s) ==> ParkedUnknown(t))
  {
    hide WindowInv, OnceInv, ParkedUnknown, DeliverVerified, ClearPending;
    ClearWanted(s, q);
    var c := ClearPending(s, q);
    var d := Credit(c, p, AskedFor(s, q), |b|);
    WantedFrame(s, c);
    WantedFrame(c, d);
    DeliverOnce(d, q, id, b, order);
  }

  // ---- ids arriving ----

  lemma TryVerifyOnce(s: Node, q: Seq, order: seq<Peer>)
    requires WindowInv(s) && OnceInv(s) && q <= U64_MAX
    requires forall x :: x in s.park.parked && x in s.edge.ids ==> x == q
    ensures DeliveryInv(TryVerifyParked(s, q, order))
  {
    hide AcceptSegment, Penalize, WindowInv;
    if q in s.park.parked {
      var u := Unpark(s, q);
      var p, raw := s.park.parked[q].peer, s.park.parked[q].raw;
      WantedFrame(s, u);
      assert ParkedUnknown(u);
      if q in s.edge.ids { AcceptOnce(u, p, q, s.edge.ids[q], raw, order); }
      PenalizeWanted(u, p, HashFail);
      WantedFrame(u, Penalize(u, p, HashFail));
    }
  }

  lemma ApplyEdgeOnce(s: Node, q: Seq, id: Digest, order: seq<Peer>)
    requires DeliveryInv(s) && q <= U64_MAX
    ensures DeliveryInv(ApplyEdge(s, q, id, order))
  {
    hide TryVerifyParked;
    TryVerifyOnce(Record(s, q, id), q, order);
  }

  // ---- chunks arriving ----

  /** The admission gate lets nothing through that was already delivered, pruned or not. */
  lemma AdmittedIsNew(s: Node, p: Peer, q: Seq)
    requires DeliveryInv(s) && Connected(s)
    requires !s.win.local.Has(q) && (Asked(s, p, q) || InPushWindow(s, q))
    ensures q !in Delivered(s)
  {}

  lemma CompletedOnce(s: Node, p: Peer, q: Seq, r: Reasm, order: seq<Peer>)
    requires DeliveryInv(s) && q <= U64_MAX && q !in Delivered(s)
    ensures DeliveryInv(Completed(s, p, q, r, order))
  {
    hide AcceptSegment, Penalize, ClearPending, WindowInv, OnceInv;
    ClearWanted(s, q);
    var c := ClearPending(s, q);
    WantedFrame(s, c);
    if q in s.edge.ids {
      AcceptOnce(s, p, q, s.edge.ids[q], r.Assembled(), order);
    }
    PenalizeWanted(c, p, HashFail);
    WantedFrame(c, Penalize(c, p, HashFail));
    if q !in s.edge.ids { ParkOnce(c, p, q, r.Assembled()); }
  }

  lemma ParkOnce(s: Node, p: Peer, q: Seq, raw: Bytes)
    requires DeliveryInv(s) && q !in Delivered(s) && q !in s.edge.ids
    ensures DeliveryInv(Park(s, p, q, raw))
  {}

  lemma SegmentDataOnce(s: Node, p: Peer, q: Seq, total: nat, offset: nat, chunk: Bytes, order: seq<Peer>)
    requires DeliveryInv(s) && Connected(s) && q <= U64_MAX
    ensures DeliveryInv(OnSegmentData(s, p, q, total, offset, chunk, order))
  {
    hide Completed, Penalize, WindowInv, OnceInv, Connected, SlotRefused, Spray, Total, Restrict;
    PenalizeWanted(s, p, ProtocolAbuse);
    WantedFrame(s, Penalize(s, p, ProtocolAbuse));
    if !s.win.local.Has(q) && (Asked(s, p, q) || InPushWindow(s, q)) {
      AdmittedIsNew(s, p, q);
      var s1 := BufferChunk(s, (p, q), total, offset, chunk);
      WantedFrame(s, s1);
      var s2 := DropSlots(s1, {(p, q)});
      WantedFrame(s1, s2);
      CompletedOnce(s2, p, q, s1.asm.reasm[(p, q)].r, order);
    }
  }

  // ---- the tick ----

  lemma CursorWindow(s: Node, playHead: Seq)
    requires DeliveryInv(s) && playHead <= U64_MAX
    ensures DeliveryInv(TickCursor(s, playHead))
  {}

  /** Pruning trades "held" for "below the window" and never cuts above what was delivered. */
  lemma PruneWindow(s: Node)
    requires DeliveryInv(s)
    ensures DeliveryInv(TickPrune(s))
  {
    hide Store.PruneBelow, Seqs, Distinct, BufMap.Highest;
  }

  lemma {:induction false} ServeWanted(s: Node, order: seq<Peer>)
    ensures NoMoreWanted(s, TickServe(s, order)) && TickServe(s, order).flight == s.flight
    decreases |order|
  {
    hide ServeQueue;
    if order != [] { ServeWanted(s, order[..|order| - 1]); }
  }

  lemma {:induction false} ExpireWanted(s: Node, order: seq<Seq>)
    ensures NoMoreWanted(s, TickExpire(s, order))
    decreases |order|
  {
    hide ClearPending, Penalize, Total, Restrict;
    if order != [] {
      ExpireWanted(s, order[..|order| - 1]);
      var t, q := TickExpire(s, order[..|order| - 1]), order[|order| - 1];
      if Stale(t, q) {
        ClearWanted(t, q);
        var p := t.flight.pending[q].peer;
        PenalizeWanted(DropSlots(ClearPending(t, q), {(p, q)}), p, Timeout);
      }
    }
  }

  lemma UpkeepWanted(s: Node, t: TickInput)
    ensures NoMoreWanted(s, TickUpkeep(s, t))
  {
    hide TickExpire, Total, Restrict;
    ExpireWanted(s, t.askOrder);
  }

  lemma IssueOne(s: Node, r: Request)
    requires DeliveryInv(s) && r.seq_ !in Delivered(s)
    ensures DeliveryInv(Issue(s, r)) && Issue(s, r).win == s.win && Issue(s, r).hist == s.hist
  {
    hide Seqs, Distinct;
  }

  lemma {:induction false} IssueOnce(s: Node, rs: seq<Request>)
    requires DeliveryInv(s) && forall r :: r in rs ==> r.seq_ !in Delivered(s)
    ensures DeliveryInv(IssueAll(s, rs))
    ensures IssueAll(s, rs).win == s.win && IssueAll(s, rs).hist == s.hist
    decreases |rs|
  {
    hide DeliveryInv, Issue;
    if rs != [] {
      IssueOnce(s, rs[..|rs| - 1]);
      IssueOne(IssueAll(s, rs[..|rs| - 1]), rs[|rs| - 1]);
    }
  }

  /** The picker never plans a segment that was delivered, even one pruned since. */
  lemma PlannedIsNew(s: Node, order: seq<Peer>, c: Chance)
    requires DeliveryInv(s)
    ensures forall r :: r in PickInput(s, order).Plan(s.win.local, c) ==> r.seq_ !in Delivered(s)
  {
    hide Input.Plan, ViewsOf, Seqs, Distinct;
    PlanAsksOnlyWhatItMay(PickInput(s, order), s.win.local, c);
  }

  lemma TickOnce(s: Node, t: TickInput)
    requires DeliveryInv(s) && t.playHead <= U64_MAX
    ensures DeliveryInv(OnTick(s, t))
  {
    hide WindowInv, OnceInv, ParkedUnknown, TickUpkeep, IssueAll, TickServe, Input.Plan, PickInput, TickCursor,
        TickPrune;
    var s0 := s.(now := s.now + t.dt);
    WantedFrame(s, s0);
    CursorWindow(s0, t.playHead);
    PruneWindow(TickCursor(s0, t.playHead));
    var p := TickPrune(TickCursor(s0, t.playHead));
    var r := TickRefill(p);
    WantedFrame(p, r);
    ServeWanted(r, t.peerOrder);
    WantedFrame(r, TickServe(r, t.peerOrder));
    UpkeepWanted(TickServe(r, t.peerOrder), t);
    var u := TickUpkeep(TickServe(r, t.peerOrder), t);
    WantedFrame(TickServe(r, t.peerOrder), u);
    PlannedIsNew(u, t.peerOrder, t.chance);
    IssueOnce(u, PickInput(u, t.peerOrder).Plan(u.win.local, t.chance));
  }

  // ---- every step ----

  lemma DisconnectWanted(s: Node, p: Peer)
    ensures NoMoreWanted(s, OnDisconnected(s, p))
  {
    hide Total, Restrict, SlotsOf;
  }

  lemma ChatterWanted(s: Node, p: Peer, msg: Msg)
    ensures NoMoreWanted(s, OnChatter(s, p, msg))
  {
    hide Penalize, Enqueue;
    PenalizeWanted(s, p, ProtocolAbuse);
  }

  lemma InboundOnce(s: Node, p: Peer, msg: Msg, order: seq<Peer>)
    requires DeliveryInv(s) && Connected(s)
    requires (msg.SegmentData? ==> msg.q <= U64_MAX) && (msg.EdgeAnnounce? ==> msg.q <= U64_MAX)
    ensures DeliveryInv(OnInbound(s, p, msg, order))
  {
    hide WindowInv, OnceInv, ParkedUnknown, OnSegmentData, ApplyEdge, Connected, OnChatter;
    match msg
    case SegmentData(q, total, offset, chunk) => SegmentDataOnce(s, p, q, total, offset, chunk, order);
    case EdgeAnnounce(q, id, sig) =>
      WantedFrame(s, See(s, q));
      ApplyEdgeOnce(See(s, q), q, id, order);
    case _ => ChatterWanted(s, p, msg); WantedFrame(s, OnChatter(s, p, msg));
  }

  // ---- durable-floor results ----

  /** A fetch for a segment still inside the window has an id on record. */
  ghost predicate FloorKnown(s: Node) { forall q :: q in s.inflight && q >= s.win.floor ==> q in s.edge.ids }

  /** A floor result that verifies for a segment below the window which was played before, or of which
      a peer's copy is parked: the handler asks only the local map, which forgets everything below. */
  ghost predicate FloorBreaks(s: Node, e: Event) {
    && e.FallbackDone? && e.q in s.inflight && e.bytes.Some? && s.env.crypto.hash(e.bytes.value) == s.inflight[e.q]
    && e.q < s.win.floor && (e.q in Delivered(s) || e.q in s.park.parked)
  }

  /** What a floor result that verifies and is not held does to what this module looks at. */
  lemma FloorEffect(s: Node, q: Seq, b: Bytes, order: seq<Peer>)
    requires q in s.inflight && !s.win.local.Has(q) && s.env.crypto.hash(b) == s.inflight[q]
    ensures var t := OnFallback(s, q, Some(b), order);
            && t.hist.sink == s.hist.sink + [(q, b)] && t.park == s.park && t.edge == s.edge
            && t.win.floor == s.win.floor && t.win.local == s.win.local.Set(q) && t.env == s.env
  {
    hide ClearPending, DeliverVerified, BufMap.Set;
    var s1 := s.(inflight := s.inflight - {q});
    ClearWanted(s1, q);
    ClearEnv(s1, q);
    DeliverEffect(ClearPending(s1, q), q, s.inflight[q], b, order);
    DeliverEnv(ClearPending(s1, q), q, s.inflight[q], b, order);
  }

  lemma ClearEnv(s: Node, q: Seq)
    ensures ClearPending(s, q).env == s.env
  {}

  lemma DeliverEnv(s: Node, q: Seq, id: Digest, b: Bytes, order: seq<Peer>)
    ensures DeliverVerified(s, q, id, b, order).env == s.env
  {
    hide Store.Insert, Store.Get, PushLedger, Targets;
  }

  lemma SinkRepeats(sink: seq<(Seq, Bytes)>, q: Seq, b: Bytes)
    requires q in Seqs(sink)
    ensures !Distinct(sink + [(q, b)])
  {
    var i :| 0 <= i < |sink| && sink[i].0 == q;
    var t := sink + [(q, b)];
    assert t[i].0 == t[|sink|].0;
  }

  /** A floor result is safe exactly when it is not one of those. */
  lemma FallbackOnceExactly(s: Node, q: Seq, bytes: Option<Bytes>, order: seq<Peer>)
    requires DeliveryInv(s) && FloorKnown(s) && q in s.inflight && q <= U64_MAX
    ensures DeliveryInv(OnFallback(s, q, bytes, order)) <==> !FloorBreaks(s, FallbackDone(q, bytes, order))
  {
    hide ClearPending, DeliverVerified, WindowInv, Distinct;
    var s1 := s.(inflight := s.inflight - {q});
    WantedFrame(s, s1);
    assert s.win.floor == s.win.local.base by { FloorIsBase(s); }
    if bytes.Some? && s.env.crypto.hash(bytes.value) == s.inflight[q] && !s.win.local.Has(q) {
      if q in Delivered(s) || q in s.park.parked {
        FloorEffect(s, q, bytes.value, order);
        SinkAppend(s.hist.sink, q, bytes.value);
        if q in Delivered(s) { SinkRepeats(s.hist.sink, q, bytes.value); }
      } else {
        ClearWanted(s1, q);
        WantedFrame(s1, ClearPending(s1, q));
        DeliverOnce(ClearPending(s1, q), q, s.inflight[q], bytes.value, order);
      }
    }
  }

  /** The second way to break is no idle worry: the parked copy is played again when its id comes back. */
  lemma ParkedCopyPlaysAgain(s: Node, q: Seq, b: Bytes, order: seq<Peer>, later: seq<Peer>)
    requires DeliveryInv(s) && q in s.inflight && q < s.win.floor && s.env.crypto.hash(b) == s.inflight[q]
    requires q in s.park.parked && s.env.crypto.hash(s.park.parked[q].raw) == s.inflight[q]
    ensures q !in Delivered(s) && Distinct(OnFallback(s, q, Some(b), order).hist.sink)
    ensures !Distinct(ApplyEdge(OnFallback(s, q, Some(b), order), q, s.inflight[q], later).hist.sink)
  {
    hide OnFallback, AcceptSegment, Distinct;
    FloorIsBase(s);
    FloorEffect(s, q, b, order);
    SinkAppend(s.hist.sink, q, b);
    LocalSetHas(s.win.local, q);
    var t := OnFallback(s, q, Some(b), order);
    var r := Record(t, q, s.inflight[q]);
    var u, p, raw := Unpark(r, q), r.park.parked[q].peer, r.park.parked[q].raw;
    AcceptSink(u, p, q, s.inflight[q], raw, later);
    SinkRepeats(t.hist.sink, q, raw);
  }

  lemma AcceptSink(s: Node, p: Peer, q: Seq, id: Digest, b: Bytes, order: seq<Peer>)
    ensures AcceptSegment(s, p, q, id, b, order).hist.sink == s.hist.sink + [(q, b)]
  {
    hide ClearPending, DeliverVerified;
    ClearWanted(s, q);
    DeliverEffect(Credit(ClearPending(s, q), p, AskedFor(s, q), |b|), q, id, b, order);
  }

  lemma FloorIsBase(s: Node)
    requires WindowInv(s)
    ensures s.win.floor == s.win.local.base
  {}

  /** The safe events: anything but local production and the floor results above. */
  lemma StepOnceExactly(s: Node, e: Event)
    requires DeliveryInv(s) && Connected(s) && FloorKnown(s) && Legal(s, e) && !e.Produced?
    ensures DeliveryInv(Step(s, e)) <==> !FloorBreaks(s, e)
  {
    hide WindowInv, OnceInv, ParkedUnknown, OnTick, OnInbound, ApplyEdge, OnDisconnected, Connected, OnFallback,
        FloorKnown, Delivered;
    match e
    case PeerDisconnected(p) => DisconnectWanted(s, p); WantedFrame(s, OnDisconnected(s, p));
    case Inbound(p, msg, order) => InboundOnce(s, p, msg, order);
    case LiveEdge(q, id, order) => ApplyEdgeOnce(s, q, id, order);
    case Tick(t) => TickOnce(s, t);
    case Produced(_, _, _, _) =>
    case FallbackDone(q, bytes, order) => FallbackOnceExactly(s, q, bytes, order);
    case PeerConnected(_, _) => WantedFrame(s, Step(s, e));
    case SetPublisherKey(_) => WantedFrame(s, Step(s, e));
    case SetRole(_) => WantedFrame(s, Step(s, e));
    case SetUploadBudget(_) => WantedFrame(s, Step(s, e));
    case SetSegMs(_) => WantedFrame(s, Step(s, e));
  }

  // ---- parked bytes have no id, whatever else happens ----

  /** No more is parked, and no more ids are known. */
  lemma ParkedFrame(s: Node, t: Node)
    requires ParkedUnknown(s) && t.park.parked.Keys <= s.park.parked.Keys && t.edge.ids.Keys <= s.edge.ids.Keys
    ensures ParkedUnknown(t)
  {}

  lemma DeliverLeavesParked(s: Node, q: Seq, id: Digest, b: Bytes, order: seq<Peer>)
    ensures DeliverVerified(s, q, id, b, order).park == s.park && DeliverVerified(s, q, id, b, order).edge == s.edge
  {
    hide DeliverVerified;
    DeliverEffect(s, q, id, b, order);
  }

  lemma AcceptLeavesParked(s: Node, p: Peer, q: Seq, id: Digest, b: Bytes, order: seq<Peer>)
    ensures AcceptSegment(s, p, q, id, b, order).park == s.park && AcceptSegment(s, p, q, id, b, order).edge == s.edge
  {
    hide ClearPending, DeliverVerified;
    ClearWanted(s, q);
    DeliverLeavesParked(Credit(ClearPending(s, q), p, AskedFor(s, q), |b|), q, id, b, order);
  }

  lemma ApplyEdgeParked(s: Node, q: Seq, id: Digest, order: seq<Peer>)
    requires ParkedUnknown(s)
    ensures ParkedUnknown(ApplyEdge(s, q, id, order))
  {
    hide AcceptSegment, Penalize, BufMap.Has;
    var r := Record(s, q, id);
    if q in r.park.parked {
      var u, p, raw := Unpark(r, q), r.park.parked[q].peer, r.park.parked[q].raw;
      PenalizeWanted(u, p, HashFail);
      AcceptLeavesParked(u, p, q, id, raw, order);
    }
  }

  lemma SegmentDataParked(s: Node, p: Peer, q: Seq, total: nat, offset: nat, chunk: Bytes, order: seq<Peer>)
    requires ParkedUnknown(s)
    ensures ParkedUnknown(OnSegmentData(s, p, q, total, offset, chunk, order))
  {
    hide Completed, Penalize, SlotRefused, Spray, Total, Restrict, BufMap.Has;
    PenalizeWanted(s, p, ProtocolAbuse);
    var s1 := BufferChunk(s, (p, q), total, offset, chunk);
    CompletedParked(DropSlots(s1, {(p, q)}), p, q, s1.asm.reasm[(p, q)].r, order);
  }

  lemma CompletedParked(s: Node, p: Peer, q: Seq, r: Reasm, order: seq<Peer>)
    requires ParkedUnknown(s)
    ensures ParkedUnknown(Completed(s, p, q, r, order))
  {
    hide AcceptSegment, Penalize, ClearPending, Reasm.Complete, Reasm.Assembled;
    ClearWanted(s, q);
    PenalizeWanted(ClearPending(s, q), p, HashFail);
    if q in s.edge.ids { AcceptLeavesParked(s, p, q, s.edge.ids[q], r.Assembled(), order); }
  }

  lemma TickParked(s: Node, t: TickInput)
    requires ParkedUnknown(s)
    ensures ParkedUnknown(OnTick(s, t))
  {
    hide TickUpkeep, IssueAll, TickServe, Input.Plan, PickInput, Store.PruneBelow, BufMap.PruneBelow, BufMap.Highest;
    var r := TickRefill(TickPrune(TickCursor(s.(now := s.now + t.dt), t.playHead)));
    ParkedFrame(s, r);
    hide TickRefill, TickPrune, TickCursor;
    ServeWanted(r, t.peerOrder);
    UpkeepWanted(TickServe(r, t.peerOrder), t);
    var u := TickUpkeep(TickServe(r, t.peerOrder), t);
    IssueLeavesParked(u, PickInput(u, t.peerOrder).Plan(u.win.local, t.chance));
  }

  lemma {:induction false} IssueLeavesParked(s: Node, rs: seq<Request>)
    ensures IssueAll(s, rs).park == s.park && IssueAll(s, rs).edge == s.edge
    decreases |rs|
  {
    if rs != [] { IssueLeavesParked(s, rs[..|rs| - 1]); }
  }

  lemma FallbackParked(s: Node, q: Seq, bytes: Option<Bytes>, order: seq<Peer>)
    requires ParkedUnknown(s) && q in s.inflight
    ensures ParkedUnknown(OnFallback(s, q, bytes, order))
  {
    hide ClearPending, DeliverVerified, BufMap.Has;
    var s1 := s.(inflight := s.inflight - {q});
    ClearWanted(s1, q);
    if bytes.Some? { DeliverLeavesParked(ClearPending(s1, q), q, s.inflight[q], bytes.value, order); }
  }

  lemma ProducedParked(s: Node, q: Seq, id: Digest, b: Bytes, order: seq<Peer>)
    ensures OnProduced(s, q, id, b, order).park == s.park
    ensures OnProduced(s, q, id, b, order).edge.ids == s.edge.ids[q := id]
  {
    hide Store.Insert, PushLedger, Targets, Store.Get, BufMap.Set, BufMap.Has;
  }

  /** Producing a segment whose bytes are parked is the one way to park bytes under a known id. */
  ghost predicate ProducesParked(s: Node, e: Event) { e.Produced? && e.q in s.park.parked }

  lemma StepParkedExactly(s: Node, e: Event)
    requires ParkedUnknown(s) && Legal(s, e)
    ensures ParkedUnknown(Step(s, e)) <==> !ProducesParked(s, e)
  {
    hide OnTick, OnInbound, ApplyEdge, OnDisconnected, OnFallback, OnProduced, Enumerates;
    match e
    case PeerDisconnected(p) => DisconnectWanted(s, p);
    case Inbound(p, msg, order) => InboundParked(s, p, msg, order);
    case LiveEdge(q, id, order) => ApplyEdgeParked(s, q, id, order);
    case Tick(t) => TickParked(s, t);
    case Produced(q, id, b, order) => ProducedParked(s, q, id, b, order);
    case FallbackDone(q, bytes, order) => FallbackParked(s, q, bytes, order);
    case _ =>
  }

  lemma InboundParked(s: Node, p: Peer, msg: Msg, order: seq<Peer>)
    requires ParkedUnknown(s)
    ensures ParkedUnknown(OnInbound(s, p, msg, order))
  {
    hide OnSegmentData, ApplyEdge, OnChatter, JudgeEdge;
    match msg
    case SegmentData(q, total, offset, chunk) => SegmentDataParked(s, p, q, total, offset, chunk, order);
    case EdgeAnnounce(q, id, sig) => ApplyEdgeParked(See(s, q), q, id, order);
    case _ => ChatterWanted(s, p, msg);
  }

  lemma StartDelivery(s: Node)
    requires IsStart(s)
    ensures DeliveryInv(s) && FlightInv(s)
  {}
}
