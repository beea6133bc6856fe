/** The local window over every run: its base is the last prune floor, a window with
    content never empties, and its newest segment never goes backwards. */
module MeshWindow {
  import opened Common
  import opened BufferMaps
  import opened Reassembly
  import opened SegmentStores
  import opened Picker
  import opened MeshState
  import opened MeshDelivery

  /** The newest held segment of `a` is still matched or beaten by `b`. */
  ghost predicate NotBehind(a: BufMap, b: BufMap) {
    a.Highest().Some? ==> b.Highest().Some? && a.Highest().value <= b.Highest().value
  }

  /** `t` keeps the window sound, with a floor and a newest segment no older than `s`'s. */
  ghost predicate Slides(s: Node, t: Node) {
    WindowInv(t) && s.win.floor <= t.win.floor && NotBehind(s.win.local, t.win.local)
  }

  ghost predicate SameWindow(s: Node, t: Node) { t.win == s.win && t.edge.head == s.edge.head }

  lemma Rest(s: Node, t: Node)
    requires WindowInv(s) && SameWindow(s, t)
    ensures Slides(s, t)
  {}

  lemma SetNotBehind(m: BufMap, q: Seq)
    requires m.base + |m.bits| <= U64_MAX + 1 && q <= U64_MAX
    ensures NotBehind(m, m.Set(q))
  {
    hide BufMap.Set, LastOne;
    LocalSetHas(m, q);
    HighestIsGreatest(m);
    HighestIsGreatest(m.Set(q));
    if m.Highest().Some? {
      assert m.Set(q).Has(m.Highest().value);
      HasIsMembership(m.Set(q), m.Highest().value);
    }
  }

  /** Cutting at or below the newest held segment keeps it. */
  lemma PruneNotBehind(m: BufMap, floor: Seq)
    requires m.base + |m.bits| <= U64_MAX + 1
    requires m.Highest().Some? ==> floor <= m.Highest().value
    ensures NotBehind(m, m.PruneBelow(floor))
  {
    hide LastOne;
    HighestIsGreatest(m);
    if m.Highest().Some? {
      var cut := m.PruneBelow(floor);
      assert cut.Has(m.Highest().value);
      HighestIsGreatest(cut);
      HasIsMembership(cut, m.Highest().value);
    }
  }

  lemma KeepSlides(s: Node, q: Seq, id: Digest, b: Bytes)
    requires WindowInv(s) && q <= U64_MAX
    ensures Slides(s, Keep(s, q, id, b))
  {
    hide Store.Insert, BufMap.Set, BufMap.Highest;
    LocalSetHas(s.win.local, q);
    SetNotBehind(s.win.local, q);
  }

  lemma DeliverSlides(s: Node, q: Seq, id: Digest, b: Bytes, order: seq<Peer>)
    requires WindowInv(s) && q <= U64_MAX
    ensures Slides(s, DeliverVerified(s, q, id, b, order))
  {
    hide DeliverVerified, BufMap.Set, BufMap.Highest;
    DeliverEffect(s, q, id, b, order);
    LocalSetHas(s.win.local, q);
    SetNotBehind(s.win.local, q);
  }

  lemma AcceptSlides(s: Node, p: Peer, q: Seq, id: Digest, b: Bytes, order: seq<Peer>)
    requires WindowInv(s) && q <= U64_MAX
    ensures Slides(s, AcceptSegment(s, p, q, id, b, order))
  {
    hide DeliverVerified, ClearPending;
    ClearWanted(s, q);
    DeliverSlides(Credit(ClearPending(s, q), p, AskedFor(s, q), |b|), q, id, b, order);
  }

  lemma ApplyEdgeSlides(s: Node, q: Seq, id: Digest, order: seq<Peer>)
    requires WindowInv(s) && q <= U64_MAX
    ensures Slides(s, ApplyEdge(s, q, id, order))
  {
    hide AcceptSegment, Penalize;
    var r := Record(s, q, id);
    if q in r.park.parked {
      var u := Unpark(r, q);
      AcceptSlides(u, r.park.parked[q].peer, q, id, r.park.parked[q].raw, order);
      PenalizeWanted(u, r.park.parked[q].peer, HashFail);
    }
  }

  lemma SegmentDataSlides(s: Node, p: Peer, q: Seq, total: nat, offset: nat, chunk: Bytes, order: seq<Peer>)
    requires WindowInv(s) && q <= U64_MAX
    ensures Slides(s, OnSegmentData(s, p, q, total, offset, chunk, order))
  {
    hide AcceptSegment, Penalize, ClearPending, SlotRefused, Spray, Total, Restrict, Asked, InPushWindow,
        Reasm.Complete, Reasm.Assembled;
    PenalizeWanted(s, p, ProtocolAbuse);
    var s1 := BufferChunk(s, (p, q), total, offset, chunk);
    var s2, r := DropSlots(s1, {(p, q)}), s1.asm.reasm[(p, q)].r;
    ClearWanted(s2, q);
    PenalizeWanted(ClearPending(s2, q), p, HashFail);
    if q in s2.edge.ids { AcceptSlides(s2, p, q, s2.edge.ids[q], r.Assembled(), order); }
  }

  /** However far the cursor jumped, the cut is a window below something still held. */
  lemma PruneSlides(s: Node)
    requires WindowInv(s)
    ensures Slides(s, TickPrune(s))
  {
    hide Store.PruneBelow, BufMap.Highest;
    PruneNotBehind(s.win.local, PruneFloor(s));
  }

  lemma TickSlides(s: Node, t: TickInput)
    requires WindowInv(s) && t.playHead <= U64_MAX
    ensures Slides(s, OnTick(s, t))
  {
    hide TickUpkeep, IssueAll, TickServe, Input.Plan, PickInput, TickPrune, BufMap.Highest;
    var c := TickCursor(s.(now := s.now + t.dt), t.playHead);
    PruneSlides(c);
    var r := TickRefill(TickPrune(c));
    ServeWanted(r, t.peerOrder);
    var v := TickServe(r, t.peerOrder);
    UpkeepWanted(v, t);
    IssueSame(TickUpkeep(v, t), PickInput(TickUpkeep(v, t), t.peerOrder).Plan(TickUpkeep(v, t).win.local, t.chance));
  }

  lemma {:induction false} IssueSame(s: Node, rs: seq<Request>)
    ensures SameWindow(s, IssueAll(s, rs))
    decreases |rs|
  {
    if rs != [] { IssueSame(s, rs[..|rs| - 1]); }
  }

  lemma InboundSlides(s: Node, p: Peer, msg: Msg, order: seq<Peer>)
    requires WindowInv(s) && (msg.SegmentData? ==> msg.q <= U64_MAX) && (msg.EdgeAnnounce? ==> msg.q <= U64_MAX)
    ensures Slides(s, OnInbound(s, p, msg, order))
  {
    hide OnSegmentData, OnChatter, ApplyEdge, WindowInv, NotBehind;
    Rest(s, s);
    match msg
    case SegmentData(q, total, offset, chunk) => SegmentDataSlides(s, p, q, total, offset, chunk, order);
    case EdgeAnnounce(q, id, sig) =>
      Rest(s, See(s, q));
      ApplyEdgeSlides(See(s, q), q, id, order);
    case _ => ChatterWanted(s, p, msg); Rest(s, OnChatter(s, p, msg));
  }

  lemma FallbackSlides(s: Node, q: Seq, bytes: Option<Bytes>, order: seq<Peer>)
    requires WindowInv(s) && q in s.inflight && q <= U64_MAX
    ensures Slides(s, OnFallback(s, q, bytes, order))
  {
    hide ClearPending, DeliverVerified;
    var s1 := s.(inflight := s.inflight - {q});
    ClearWanted(s1, q);
    if bytes.Some? { DeliverSlides(ClearPending(s1, q), q, s.inflight[q], bytes.value, order); }
  }

  lemma ProducedSlides(s: Node, q: Seq, id: Digest, b: Bytes, order: seq<Peer>)
    requires WindowInv(s) && q <= U64_MAX
    ensures Slides(s, OnProduced(s, q, id, b, order))
  {
    hide Keep, PushLedger, Targets, Store.Get;
    KeepSlides(s, q, id, b);
    KeepEdge(s, q, id, b);
  }

  lemma KeepEdge(s: Node, q: Seq, id: Digest, b: Bytes)
    ensures Keep(s, q, id, b).edge == s.edge
  {}

  lemma StepSlides(s: Node, e: Event)
    requires WindowInv(s) && Legal(s, e)
    ensures Slides(s, Step(s, e))
  {
    hide WindowInv, NotBehind, OnTick, OnInbound, ApplyEdge, OnDisconnected, OnFallback, OnProduced;
    match e
    case PeerDisconnected(p) => DisconnectWanted(s, p); Rest(s, OnDisconnected(s, p));
    case Inbound(p, msg, order) => InboundSlides(s, p, msg, order);
    case LiveEdge(q, id, order) => ApplyEdgeSlides(s, q, id, order);
    case Produced(q, id, b, order) => ProducedSlides(s, q, id, b, order);
    case Tick(t) => TickSlides(s, t);
    case FallbackDone(q, bytes, order) => FallbackSlides(s, q, bytes, order);
    case _ => Rest(s, Step(s, e));
  }

  /** Where a live cursor trails: half a window behind the head. */
  function Trail(s: Node): Seq { SatSub(s.edge.head, s.cfg.window / 2) }

  /** Nothing but its player moves the cursor: not live, not a follower, or within a window of the edge. */
  predicate FollowsPlayer(s: Node, playHead: Seq) {
    || s.cfg.role == Publisher || !s.cfg.live
    || (s.cfg.role == Viewer && Trail(s) <= Max(s.win.play, playHead) + s.cfg.window)
  }

  /** The cursor never goes back nor behind the player; a live seed is at the edge, a live viewer within a
      window of it; and a viewer within reach is moved by its player alone. */
  lemma CursorKeepsUp(s: Node, playHead: Seq)
    ensures var t := TickCursor(s, playHead);
            && t == s.(win := s.win.(play := t.win.play))
            && t.win.play >= s.win.play && t.win.play >= playHead
            && (s.cfg.live && s.cfg.role == Role.Seed ==> t.win.play >= Trail(s))
            && (s.cfg.live && s.cfg.role == Viewer ==> t.win.play + s.cfg.window >= Trail(s))
            && (FollowsPlayer(s, playHead) ==> t.win.play == Max(s.win.play, playHead))
            && t.win.play in {s.win.play, playHead, Trail(s)}
  {}
}
