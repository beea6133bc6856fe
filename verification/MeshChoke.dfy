/** Choking: while a peer withholds its upload from us, nothing new is asked of it, and what was
    outstanding drains. */
module MeshChoke {
  import opened Common
  import opened BufferMaps
  import opened Reassembly
  import opened SegmentStores
  import opened Picker
  import opened Wire
  import opened MeshState

  /** The requests `p` still owes us, by segment and time of asking. */
  ghost function Outstanding(f: Flight, p: Peer): set<(Seq, nat)> { AskedIn(f.pending, p) + AskedIn(f.hedge, p) }

  ghost function AskedIn(m: map<Seq, Ask>, p: Peer): set<(Seq, nat)> {
    set q | q in m && m[q].peer == p :: (q, m[q].sent)
  }

  ghost predicate Chokes(s: Node, p: Peer) { p in s.peers && s.peers[p].chokedBy }

  /** If `p` was choking us it still is, and it owes us nothing new. */
  ghost predicate Calm(p: Peer, s: Node, t: Node) {
    t.now >= s.now && (Chokes(s, p) ==> Chokes(t, p) && Outstanding(t.flight, p) <= Outstanding(s.flight, p))
  }

  /** Requests untouched, and no peer's word about choking changed. */
  ghost predicate Aside(p: Peer, s: Node, t: Node) {
    t.now >= s.now && t.flight == s.flight && (Chokes(s, p) ==> Chokes(t, p))
  }

  lemma AsideIsCalm(p: Peer, s: Node, t: Node)
    requires Aside(p, s, t)
    ensures Calm(p, s, t)
  {}

  lemma CalmTrans(p: Peer, a: Node, b: Node, c: Node)
    requires Calm(p, a, b) && Calm(p, b, c)
    ensures Calm(p, a, c)
  {
    hide Outstanding;
  }

  lemma ReleaseAside(p: Peer, s: Node, x: Peer)
    ensures Aside(p, s, Release(s, x))
  {}

  lemma Dropped(p: Peer, m: map<Seq, Ask>, q: Seq)
    ensures AskedIn(m - {q}, p) <= AskedIn(m, p)
  {}

  lemma ClearPrimaryCalm(p: Peer, s: Node, q: Seq)
    ensures Calm(p, s, ClearPrimary(s, q))
  {
    hide Release, AskedIn;
    if q in s.flight.pending {
      ReleaseAside(p, s.(flight := s.flight.(pending := s.flight.pending - {q})), s.flight.pending[q].peer);
      Dropped(p, s.flight.pending, q);
    }
  }

  lemma ClearHedgeCalm(p: Peer, s: Node, q: Seq)
    ensures Calm(p, s, ClearHedge(s, q))
  {
    hide Release, AskedIn;
    if q in s.flight.hedge {
      ReleaseAside(p, s.(flight := s.flight.(hedge := s.flight.hedge - {q})), s.flight.hedge[q].peer);
      Dropped(p, s.flight.hedge, q);
    }
  }

  lemma ClearCalm(p: Peer, s: Node, q: Seq)
    ensures Calm(p, s, ClearPending(s, q))
  {
    hide ClearPrimary, ClearHedge, Calm;
    ClearPrimaryCalm(p, s, q);
    ClearHedgeCalm(p, ClearPrimary(s, q), q);
    CalmTrans(p, s, ClearPrimary(s, q), ClearPending(s, q));
  }

  lemma PenalizeAside(p: Peer, s: Node, x: Peer, why: Penalty)
    ensures Aside(p, s, Penalize(s, x, why))
  {
    hide Total, Restrict, SlotsOf, Decay;
  }

  lemma DeliverAside(p: Peer, s: Node, q: Seq, id: Digest, b: Bytes, order: seq<Peer>)
    ensures Aside(p, s, DeliverVerified(s, q, id, b, order))
  {
    hide PushLedger, Targets, Store.Get, Store.Insert, BufMap.Set, BufMap.Has;
  }

  lemma AcceptCalm(p: Peer, s: Node, x: Peer, q: Seq, id: Digest, b: Bytes, order: seq<Peer>)
    ensures Calm(p, s, AcceptSegment(s, x, q, id, b, order))
  {
    hide ClearPending, DeliverVerified, Outstanding;
    var c := ClearPending(s, q);
    ClearCalm(p, s, q);
    var d := Credit(c, x, AskedFor(s, q), |b|);
    DeliverAside(p, d, q, id, b, order);
    AsideIsCalm(p, c, DeliverVerified(d, q, id, b, order));
    CalmTrans(p, s, c, DeliverVerified(d, q, id, b, order));
  }

  lemma ApplyCalm(p: Peer, s: Node, q: Seq, id: Digest, order: seq<Peer>)
    ensures Calm(p, s, ApplyEdge(s, q, id, order))
  {
    hide AcceptSegment, Penalize, BufMap.Has, Outstanding;
    var r := Record(s, q, id);
    if q in r.park.parked {
      var u, x, raw := Unpark(r, q), r.park.parked[q].peer, r.park.parked[q].raw;
      PenalizeAside(p, u, x, HashFail);
      AsideIsCalm(p, u, Penalize(u, x, HashFail));
      AcceptCalm(p, u, x, q, id, raw, order);
    }
  }

  lemma CompletedCalm(p: Peer, s: Node, x: Peer, q: Seq, r: Reasm, order: seq<Peer>)
    ensures Calm(p, s, Completed(s, x, q, r, order))
  {
    hide AcceptSegment, Penalize, ClearPending, Outstanding, Reasm.Complete, Reasm.Assembled;
    ClearCalm(p, s, q);
    var c := ClearPending(s, q);
    PenalizeAside(p, c, x, HashFail);
    if q in s.edge.ids { AcceptCalm(p, s, x, q, s.edge.ids[q], r.Assembled(), order); }
  }

  lemma SegmentDataCalm(p: Peer, s: Node, x: Peer, q: Seq, total: nat, offset: nat, chunk: Bytes, order: seq<Peer>)
    ensures Calm(p, s, OnSegmentData(s, x, q, total, offset, chunk, order))
  {
    hide Completed, Penalize, SlotRefused, Spray, Asked, InPushWindow, Total, Restrict, BufMap.Has, Outstanding;
    PenalizeAside(p, s, x, ProtocolAbuse);
    AsideIsCalm(p, s, Penalize(s, x, ProtocolAbuse));
    var s1 := BufferChunk(s, (x, q), total, offset, chunk);
    CompletedCalm(p, DropSlots(s1, {(x, q)}), x, q, s1.asm.reasm[(x, q)].r, order);
  }

  lemma ChatterCalm(p: Peer, s: Node, x: Peer, msg: Msg)
    requires !(x == p && msg.Unchoke?)
    ensures Aside(p, s, OnChatter(s, x, msg))
  {
    hide Penalize, Enqueue, FromBytes, BufMap.Set, Ewma.Update;
    PenalizeAside(p, s, x, ProtocolAbuse);
  }

  lemma InboundCalm(p: Peer, s: Node, x: Peer, msg: Msg, order: seq<Peer>)
    requires !(x == p && msg.Unchoke?)
    ensures Calm(p, s, OnInbound(s, x, msg, order))
  {
    hide OnSegmentData, ApplyEdge, OnChatter, Outstanding, JudgeEdge;
    match msg
    case SegmentData(q, total, offset, chunk) => SegmentDataCalm(p, s, x, q, total, offset, chunk, order);
    case EdgeAnnounce(q, id, sig) => ApplyCalm(p, See(s, q), q, id, order);
    case _ => ChatterCalm(p, s, x, msg); AsideIsCalm(p, s, OnChatter(s, x, msg));
  }

  /** A promoted hedge was already owed. */
  lemma DisconnectCalm(p: Peer, s: Node, x: Peer)
    requires x != p
    ensures Calm(p, s, OnDisconnected(s, x))
  {
    hide Total, Restrict, SlotsOf;
    Survivors(p, s.flight, x);
    hide Outstanding, Promoted, Unhedged;
  }

  lemma Survivors(p: Peer, f: Flight, x: Peer)
    requires x != p
    ensures Outstanding(Flight(Promoted(f.pending, f.hedge, x), Unhedged(f.pending, f.hedge, x)), p)
            <= Outstanding(f, p)
  {}

  lemma {:induction false} ServeAside(p: Peer, s: Node, order: seq<Peer>)
    ensures Aside(p, s, TickServe(s, order))
    decreases |order|
  {
    hide ServeQueue;
    if order != [] { ServeAside(p, s, order[..|order| - 1]); }
  }

  lemma ExpireOneCalm(p: Peer, s: Node, q: Seq)
    ensures Calm(p, s, ExpireOne(s, q))
  {
    hide ClearPending, Penalize, Total, Restrict, Outstanding;
    if Stale(s, q) {
      var x := s.flight.pending[q].peer;
      ClearCalm(p, s, q);
      PenalizeAside(p, DropSlots(ClearPending(s, q), {(x, q)}), x, Timeout);
    }
  }

  lemma {:induction false} ExpireCalm(p: Peer, s: Node, order: seq<Seq>)
    ensures Calm(p, s, TickExpire(s, order))
    decreases |order|
  {
    hide ExpireOne, Outstanding;
    if order != [] {
      var r := TickExpire(s, order[..|order| - 1]);
      ExpireCalm(p, s, order[..|order| - 1]);
      ExpireOneCalm(p, r, order[|order| - 1]);
    }
  }

  lemma UpkeepCalm(p: Peer, s: Node, t: TickInput)
    ensures Calm(p, s, TickUpkeep(s, t))
  {
    hide TickExpire, Total, Restrict, OldSlots, Behind, Outstanding;
    ExpireCalm(p, s, t.askOrder);
    AsideIsCalm(p, TickExpire(s, t.askOrder), TickUpkeep(s, t));
  }

  /** The tick asks nothing of a peer that chokes us. */
  lemma IssueOneCalm(p: Peer, s: Node, r: Request)
    ensures Calm(p, s, Issue(s, r))
  {
    if r.source.FromPeer? && r.source.peer != p {
      OthersAsked(p, s.flight.pending, r.seq_, Ask(r.source.peer, s.now));
      OthersAsked(p, s.flight.hedge, r.seq_, Ask(r.source.peer, s.now));
    }
    hide AskedIn;
  }

  lemma OthersAsked(p: Peer, m: map<Seq, Ask>, q: Seq, a: Ask)
    requires a.peer != p
    ensures AskedIn(m[q := a], p) <= AskedIn(m, p)
  {}

  lemma {:induction false} IssueCalm(p: Peer, s: Node, rs: seq<Request>)
    ensures Calm(p, s, IssueAll(s, rs))
    decreases |rs|
  {
    hide Issue, Outstanding;
    if rs != [] {
      IssueCalm(p, s, rs[..|rs| - 1]);
      IssueOneCalm(p, IssueAll(s, rs[..|rs| - 1]), rs[|rs| - 1]);
    }
  }

  lemma TickCalm(p: Peer, s: Node, t: TickInput)
    ensures Calm(p, s, OnTick(s, t))
  {
    hide TickUpkeep, IssueAll, TickServe, Input.Plan, PickInput, Outstanding, Store.PruneBelow, BufMap.PruneBelow,
        BufMap.Highest;
    var r := TickRefill(TickPrune(TickCursor(s.(now := s.now + t.dt), t.playHead)));
    AsideIsCalm(p, s, r);
    hide TickRefill, TickPrune, TickCursor;
    ServeAside(p, r, t.peerOrder);
    var v := TickServe(r, t.peerOrder);
    AsideIsCalm(p, r, v);
    UpkeepCalm(p, v, t);
    var u := TickUpkeep(v, t);
    var plan := PickInput(u, t.peerOrder).Plan(u.win.local, t.chance);
    IssueCalm(p, u, plan);
    hide Calm;
    CalmTrans(p, s, r, v);
    CalmTrans(p, s, v, u);
    CalmTrans(p, s, u, IssueAll(u, plan));
  }

  lemma FallbackCalm(p: Peer, s: Node, q: Seq, bytes: Option<Bytes>, order: seq<Peer>)
    requires q in s.inflight
    ensures Calm(p, s, OnFallback(s, q, bytes, order))
  {
    hide ClearPending, DeliverVerified, BufMap.Has, Outstanding;
    var s1 := s.(inflight := s.inflight - {q});
    ClearCalm(p, s1, q);
    if bytes.Some? { DeliverAside(p, ClearPending(s1, q), q, s.inflight[q], bytes.value, order); }
  }

  /** Events that do not end the choking. */
  ghost predicate LeavesChoked(p: Peer, e: Event) {
    e != PeerDisconnected(p) && !(e.Inbound? && e.peer == p && e.msg.Unchoke?)
  }

  lemma StepCalm(p: Peer, s: Node, e: Event)
    requires Legal(s, e) && LeavesChoked(p, e)
    ensures Calm(p, s, Step(s, e))
  {
    hide OnTick, OnInbound, ApplyEdge, OnDisconnected, OnFallback, Outstanding, PushLedger, Targets, Store.Get,
        Store.Insert, BufMap.Set, BufMap.Has, Enumerates;
    match e
    case PeerDisconnected(x) => DisconnectCalm(p, s, x);
    case Inbound(x, msg, order) => InboundCalm(p, s, x, msg, order);
    case LiveEdge(q, id, order) => ApplyCalm(p, s, q, id, order);
    case Tick(t) => TickCalm(p, s, t);
    case FallbackDone(q, bytes, order) => FallbackCalm(p, s, q, bytes, order);
    case _ =>
  }

  // ---- whom we choke ----

  ghost predicate Choked(s: Node, p: Peer) { p in s.peers && s.peers[p].choked }

  /** The role is as it was, and so is whether we choke `p`. */
  ghost predicate FlagKept(p: Peer, s: Node, t: Node) {
    t.cfg.role == s.cfg.role && (Choked(t, p) <==> Choked(s, p))
  }

  lemma ReleaseFlag(p: Peer, s: Node, x: Peer)
    ensures FlagKept(p, s, Release(s, x))
  {}

  lemma ClearFlag(p: Peer, s: Node, q: Seq)
    ensures FlagKept(p, s, ClearPending(s, q))
  {
    hide Release;
    if q in s.flight.pending {
      ReleaseFlag(p, s.(flight := s.flight.(pending := s.flight.pending - {q})), s.flight.pending[q].peer);
    }
    var c := ClearPrimary(s, q);
    hide ClearPrimary;
    if q in c.flight.hedge {
      ReleaseFlag(p, c.(flight := c.flight.(hedge := c.flight.hedge - {q})), c.flight.hedge[q].peer);
    }
  }

  lemma PenalizeFlag(p: Peer, s: Node, x: Peer, why: Penalty)
    ensures FlagKept(p, s, Penalize(s, x, why))
  {
    hide Total, Restrict, SlotsOf, Decay;
  }

  lemma DeliverFlag(p: Peer, s: Node, q: Seq, id: Digest, b: Bytes, order: seq<Peer>)
    ensures FlagKept(p, s, DeliverVerified(s, q, id, b, order))
  {
    hide PushLedger, Targets, Store.Get, Store.Insert, BufMap.Set, BufMap.Has;
  }

  lemma AcceptFlag(p: Peer, s: Node, x: Peer, q: Seq, id: Digest, b: Bytes, order: seq<Peer>)
    ensures FlagKept(p, s, AcceptSegment(s, x, q, id, b, order))
  {
    hide ClearPending, DeliverVerified;
    ClearFlag(p, s, q);
    DeliverFlag(p, Credit(ClearPending(s, q), x, AskedFor(s, q), |b|), q, id, b, order);
  }

  lemma ApplyFlag(p: Peer, s: Node, q: Seq, id: Digest, order: seq<Peer>)
    ensures FlagKept(p, s, ApplyEdge(s, q, id, order))
  {
    hide AcceptSegment, Penalize, BufMap.Has;
    var r := Record(s, q, id);
    if q in r.park.parked {
      var u, x, raw := Unpark(r, q), r.park.parked[q].peer, r.park.parked[q].raw;
      PenalizeFlag(p, u, x, HashFail);
      AcceptFlag(p, u, x, q, id, raw, order);
    }
  }

  lemma SegmentDataFlag(p: Peer, s: Node, x: Peer, q: Seq, total: nat, offset: nat, chunk: Bytes, order: seq<Peer>)
    ensures FlagKept(p, s, OnSegmentData(s, x, q, total, offset, chunk, order))
  {
    hide Completed, Penalize, SlotRefused, Spray, Asked, InPushWindow, Total, Restrict, BufMap.Has;
    PenalizeFlag(p, s, x, ProtocolAbuse);
    var s1 := BufferChunk(s, (x, q), total, offset, chunk);
    CompletedFlag(p, DropSlots(s1, {(x, q)}), x, q, s1.asm.reasm[(x, q)].r, order);
  }

  lemma CompletedFlag(p: Peer, s: Node, x: Peer, q: Seq, r: Reasm, order: seq<Peer>)
    ensures FlagKept(p, s, Completed(s, x, q, r, order))
  {
    hide AcceptSegment, Penalize, ClearPending, Reasm.Complete, Reasm.Assembled;
    ClearFlag(p, s, q);
    PenalizeFlag(p, ClearPending(s, q), x, HashFail);
    if q in s.edge.ids { AcceptFlag(p, s, x, q, s.edge.ids[q], r.Assembled(), order); }
  }

  lemma InboundFlag(p: Peer, s: Node, x: Peer, msg: Msg, order: seq<Peer>)
    ensures FlagKept(p, s, OnInbound(s, x, msg, order))
  {
    hide OnSegmentData, ApplyEdge, Penalize, Enqueue, FromBytes, BufMap.Set, Ewma.Update, JudgeEdge;
    PenalizeFlag(p, s, x, ProtocolAbuse);
    match msg
    case SegmentData(q, total, offset, chunk) => SegmentDataFlag(p, s, x, q, total, offset, chunk, order);
    case EdgeAnnounce(q, id, sig) => ApplyFlag(p, See(s, q), q, id, order);
    case _ =>
  }

  lemma {:induction false} ServeFlag(p: Peer, s: Node, order: seq<Peer>)
    ensures FlagKept(p, s, TickServe(s, order)) && TickServe(s, order).cfg == s.cfg
    decreases |order|
  {
    hide ServeQueue;
    if order != [] { ServeFlag(p, s, order[..|order| - 1]); }
  }

  lemma {:induction false} ExpireFlag(p: Peer, s: Node, order: seq<Seq>)
    ensures FlagKept(p, s, TickExpire(s, order))
    decreases |order|
  {
    hide ClearPending, Penalize, Total, Restrict;
    if order != [] {
      ExpireFlag(p, s, order[..|order| - 1]);
      var r, q := TickExpire(s, order[..|order| - 1]), order[|order| - 1];
      if Stale(r, q) {
        var x := r.flight.pending[q].peer;
        ClearFlag(p, r, q);
        PenalizeFlag(p, DropSlots(ClearPending(r, q), {(x, q)}), x, Timeout);
      }
    }
  }

  /** Only a viewer reviews its upload slots. */
  lemma UpkeepFlag(p: Peer, s: Node, t: TickInput)
    ensures TickUpkeep(s, t).cfg.role == s.cfg.role
    ensures s.cfg.role != Viewer ==> FlagKept(p, s, TickUpkeep(s, t))
  {
    hide TickExpire, Total, Restrict, OldSlots, Behind;
    ExpireFlag(p, s, t.askOrder);
  }

  lemma {:induction false} IssueFlag(p: Peer, s: Node, rs: seq<Request>)
    ensures FlagKept(p, s, IssueAll(s, rs))
    decreases |rs|
  {
    if rs != [] { IssueFlag(p, s, rs[..|rs| - 1]); }
  }

  lemma TickFlag(p: Peer, s: Node, t: TickInput)
    ensures OnTick(s, t).cfg.role == s.cfg.role
    ensures s.cfg.role != Viewer ==> FlagKept(p, s, OnTick(s, t))
  {
    hide TickUpkeep, IssueAll, TickServe, Input.Plan, PickInput, Store.PruneBelow, BufMap.PruneBelow, BufMap.Highest;
    var r := TickRefill(TickPrune(TickCursor(s.(now := s.now + t.dt), t.playHead)));
    assert FlagKept(p, s, r);
    hide TickRefill, TickPrune, TickCursor;
    ServeFlag(p, r, t.peerOrder);
    var v := TickServe(r, t.peerOrder);
    UpkeepFlag(p, v, t);
    var u := TickUpkeep(v, t);
    IssueFlag(p, u, PickInput(u, t.peerOrder).Plan(u.win.local, t.chance));
  }

  lemma FallbackFlag(p: Peer, s: Node, q: Seq, bytes: Option<Bytes>, order: seq<Peer>)
    requires q in s.inflight
    ensures FlagKept(p, s, OnFallback(s, q, bytes, order))
  {
    hide ClearPending, DeliverVerified, BufMap.Has;
    var s1 := s.(inflight := s.inflight - {q});
    ClearFlag(p, s1, q);
    if bytes.Some? { DeliverFlag(p, ClearPending(s1, q), q, s.inflight[q], bytes.value, order); }
  }

  /** But for a viewer's ticks, the one event that changes whether we choke `p` is its departure; and only
      `SetRole` changes the role. */
  lemma StepFlag(p: Peer, s: Node, e: Event)
    requires Legal(s, e)
    ensures !(e.Tick? && s.cfg.role == Viewer) ==>
              (Choked(Step(s, e), p) <==> Choked(s, p) && e != PeerDisconnected(p))
    ensures !e.SetRole? ==> Step(s, e).cfg.role == s.cfg.role
  {
    hide OnTick, OnInbound, ApplyEdge, OnFallback, PushLedger, Targets, Store.Get, Store.Insert, BufMap.Set, BufMap.Has,
         Enumerates, Total, Restrict, SlotsOf, Promoted, Unhedged;
    match e
    case Inbound(x, msg, order) => InboundFlag(p, s, x, msg, order);
    case LiveEdge(q, id, order) => ApplyFlag(p, s, q, id, order);
    case Tick(t) => TickFlag(p, s, t);
    case FallbackDone(q, bytes, order) => FallbackFlag(p, s, q, bytes, order);
    case _ =>
  }
}
