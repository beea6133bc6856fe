/** Request accounting over every run: what a peer is charged for is exactly what it was asked. */
module MeshFlight {
  import opened Common
  import opened BufferMaps
  import opened Picker
  import opened MeshState

  /** How many requests in `m` are addressed to `p`. */
  ghost function CountTo(m: map<Seq, Ask>, p: Peer): nat { |AsksTo(m, p)| }
  ghost function AsksTo(m: map<Seq, Ask>, p: Peer): set<Seq> { set q | q in m && m[q].peer == p }

  ghost function Due(s: Node, p: Peer): nat {
    (CountTo(s.flight.pending, p) + CountTo(s.flight.hedge, p)) * s.env.segBytes
  }

  /** Each peer's `pending_bytes` is the segment size times its primary plus hedge entries. */
  ghost predicate Tally(s: Node) { forall p :: p in s.peers ==> s.peers[p].pendingBytes == Due(s, p) }

  /** Everyone asked is still connected; a hedge rides beside an older primary to another peer. */
  ghost predicate Connected(s: Node) {
    && (forall q :: q in s.flight.pending ==>
          s.flight.pending[q].peer in s.peers && s.flight.pending[q].peer in s.links
              && s.flight.pending[q].sent <= s.now)
    && (forall q :: q in s.flight.hedge ==>
          && s.flight.hedge[q].peer in s.peers && s.flight.hedge[q].peer in s.links
          && q in s.flight.pending && s.flight.hedge[q].peer != s.flight.pending[q].peer
          && s.flight.pending[q].sent <= s.flight.hedge[q].sent <= s.now)
  }

  ghost predicate FlightInv(s: Node) { Tally(s) && Connected(s) }

  /** No request has been in flight for the timeout. */
  ghost predicate AllFresh(s: Node) {
    && (forall q :: q in s.flight.pending ==> s.now < s.flight.pending[q].sent + PENDING_TIMEOUT_MS)
    && (forall q :: q in s.flight.hedge ==> s.now < s.flight.hedge[q].sent + PENDING_TIMEOUT_MS)
  }

  /** `t` differs from `s` only in what request accounting does not look at. */
  ghost predicate SameFlight(s: Node, t: Node) {
    && t.flight == s.flight && t.links == s.links && t.env == s.env && t.now >= s.now
    && t.peers.Keys == s.peers.Keys
    && forall p :: p in s.peers ==> t.peers[p].pendingBytes == s.peers[p].pendingBytes
  }

  lemma FlightFrame(s: Node, t: Node)
    requires FlightInv(s) && SameFlight(s, t)
    ensures FlightInv(t)
  {
    hide Due;
    TallyFrame(s, t);
    ConnectedFrame(s, t);
  }

  lemma SameDue(s: Node, t: Node, p: Peer)
    requires s.flight == t.flight && s.env == t.env
    ensures Due(s, p) == Due(t, p)
  {}

  lemma TallyFrame(s: Node, t: Node)
    requires Tally(s) && SameFlight(s, t)
    ensures Tally(t)
  {
    hide Due;
    forall p | p in t.peers ensures t.peers[p].pendingBytes == Due(t, p) { SameDue(s, t, p); }
  }

  lemma ConnectedFrame(s: Node, t: Node)
    requires Connected(s) && SameFlight(s, t)
    ensures Connected(t)
  {}

  // ---- counting ----

  lemma CountRemove(m: map<Seq, Ask>, q: Seq, p: Peer)
    requires q in m
    ensures CountTo(m, p) == CountTo(m - {q}, p) + (if m[q].peer == p then 1 else 0)
  {
    if m[q].peer == p {
      assert AsksTo(m - {q}, p) == AsksTo(m, p) - {q};
    } else {
      assert AsksTo(m - {q}, p) == AsksTo(m, p);
    }
  }

  lemma CountPut(m: map<Seq, Ask>, q: Seq, a: Ask, p: Peer)
    requires q !in m
    ensures CountTo(m[q := a], p) == CountTo(m, p) + (if a.peer == p then 1 else 0)
  {
    CountRemove(m[q := a], q, p);
    assert m[q := a] - {q} == m;
  }

  lemma ReleaseTally(s: Node, t: Node, p: Peer)
    requires t.env == s.env && t.peers == s.peers && p in s.peers && Tally(s)
    requires forall x :: x in s.peers ==> Due(s, x) == Due(t, x) + (if x == p then s.env.segBytes else 0)
    ensures Tally(Release(t, p))
  {
    var r := Release(t, p);
    forall x | x in r.peers ensures r.peers[x].pendingBytes == Due(r, x) {
      assert Due(r, x) == Due(t, x);
    }
  }

  lemma ClearPrimaryTally(s: Node, q: Seq)
    requires Tally(s) && (q in s.flight.pending ==> s.flight.pending[q].peer in s.peers)
    ensures Tally(ClearPrimary(s, q))
  {
    if q in s.flight.pending {
      var t := s.(flight := s.flight.(pending := s.flight.pending - {q}));
      forall x | x in s.peers
        ensures Due(s, x) == Due(t, x) + (if x == s.flight.pending[q].peer then s.env.segBytes else 0)
      {
        CountRemove(s.flight.pending, q, x);
        ScaleStep(CountTo(t.flight.pending, x) + CountTo(t.flight.hedge, x), s.env.segBytes);
      }
      ReleaseTally(s, t, s.flight.pending[q].peer);
    }
  }

  lemma ClearHedgeTally(s: Node, q: Seq)
    requires Tally(s) && (q in s.flight.hedge ==> s.flight.hedge[q].peer in s.peers)
    ensures Tally(ClearHedge(s, q))
  {
    if q in s.flight.hedge {
      var t := s.(flight := s.flight.(hedge := s.flight.hedge - {q}));
      forall x | x in s.peers
        ensures Due(s, x) == Due(t, x) + (if x == s.flight.hedge[q].peer then s.env.segBytes else 0)
      {
        CountRemove(s.flight.hedge, q, x);
        ScaleStep(CountTo(t.flight.pending, x) + CountTo(t.flight.hedge, x), s.env.segBytes);
      }
      ReleaseTally(s, t, s.flight.hedge[q].peer);
    }
  }

  /** Clearing a request releases both peers it was with, whoever delivered. */
  lemma ClearPendingFlight(s: Node, q: Seq)
    requires FlightInv(s)
    ensures FlightInv(ClearPending(s, q))
    ensures ClearPending(s, q).flight == Flight(s.flight.pending - {q}, s.flight.hedge - {q})
    ensures ClearPending(s, q).peers.Keys == s.peers.Keys
  {
    hide Tally;
    ClearPrimaryTally(s, q);
    ClearPrimaryShape(s, q);
    var c := ClearPrimary(s, q);
    assert q in c.flight.hedge ==> c.flight.hedge[q].peer in c.peers;
    ClearHedgeTally(c, q);
    ClearHedgeShape(c, q);
    hide ClearPrimary, ClearHedge;
    ClearedConnected(s, ClearHedge(c, q), q);
  }

  lemma ClearPrimaryShape(s: Node, q: Seq)
    ensures var t := ClearPrimary(s, q);
            t.flight == Flight(s.flight.pending - {q}, s.flight.hedge) && t.peers.Keys == s.peers.Keys
                && t.links == s.links && t.now == s.now
  {
    if q !in s.flight.pending { assert s.flight.pending - {q} == s.flight.pending; }
  }

  lemma ClearHedgeShape(s: Node, q: Seq)
    ensures var t := ClearHedge(s, q);
            t.flight == Flight(s.flight.pending, s.flight.hedge - {q}) && t.peers.Keys == s.peers.Keys
                && t.links == s.links && t.now == s.now
  {
    if q !in s.flight.hedge { assert s.flight.hedge - {q} == s.flight.hedge; }
  }

  lemma ClearedConnected(s: Node, t: Node, q: Seq)
    requires Connected(s) && t.flight == Flight(s.flight.pending - {q}, s.flight.hedge - {q})
    requires t.peers.Keys == s.peers.Keys && t.links == s.links && t.now == s.now
    ensures Connected(t)
  {}

  // ---- operations off the request path ----

  lemma PenalizeSameFlight(s: Node, p: Peer, why: Penalty)
    ensures SameFlight(s, Penalize(s, p, why))
  {}

  lemma DeliverSameFlight(s: Node, q: Seq, id: Digest, b: Bytes, order: seq<Peer>)
    ensures SameFlight(s, DeliverVerified(s, q, id, b, order))
  {}

  lemma AcceptFlight(s: Node, p: Peer, q: Seq, id: Digest, b: Bytes, order: seq<Peer>)
    requires FlightInv(s)
    ensures FlightInv(AcceptSegment(s, p, q, id, b, order))
  {
    hide Tally, Connected, ClearPending, DeliverVerified;
    ClearPendingFlight(s, q);
    var c := ClearPending(s, q);
    var d := Credit(c, p, AskedFor(s, q), |b|);
    FlightFrame(c, d);
    DeliverSameFlight(d, q, id, b, order);
    FlightFrame(d, DeliverVerified(d, q, id, b, order));
  }

  lemma PenalizeFlight(s: Node, p: Peer, why: Penalty)
    requires FlightInv(s)
    ensures FlightInv(Penalize(s, p, why))
  {
    PenalizeSameFlight(s, p, why);
    FlightFrame(s, Penalize(s, p, why));
  }

  lemma TryVerifyFlight(s: Node, q: Seq, order: seq<Peer>)
    requires FlightInv(s)
    ensures FlightInv(TryVerifyParked(s, q, order))
  {
    hide Tally, Connected, AcceptSegment, Penalize;
    if q in s.park.parked {
      var s1 := Unpark(s, q);
      FlightFrame(s, s1);
      if q in s.edge.ids { AcceptFlight(s1, s.park.parked[q].peer, q, s.edge.ids[q], s.park.parked[q].raw, order); }
      PenalizeFlight(s1, s.park.parked[q].peer, HashFail);
    }
  }

  lemma ApplyEdgeFlight(s: Node, q: Seq, id: Digest, order: seq<Peer>)
    requires FlightInv(s)
    ensures FlightInv(ApplyEdge(s, q, id, order))
  {
    FlightFrame(s, Record(s, q, id));
    TryVerifyFlight(Record(s, q, id), q, order);
  }

  lemma CompletedFlight(s: Node, p: Peer, q: Seq, r: Reassembly.Reasm, order: seq<Peer>)
    requires FlightInv(s)
    ensures FlightInv(Completed(s, p, q, r, order))
  {
    hide Tally, Connected, AcceptSegment, Penalize, ClearPending;
    if q in s.edge.ids { AcceptFlight(s, p, q, s.edge.ids[q], r.Assembled(), order); }
    ClearPendingFlight(s, q);
    var c := ClearPending(s, q);
    PenalizeFlight(c, p, HashFail);
    FlightFrame(c, Park(c, p, q, r.Assembled()));
  }

  lemma SegmentDataFlight(s: Node, p: Peer, q: Seq, total: nat, offset: nat, chunk: Bytes, order: seq<Peer>)
    requires FlightInv(s)
    ensures FlightInv(OnSegmentData(s, p, q, total, offset, chunk, order))
  {
    hide Tally, Connected, Completed, Penalize;
    PenalizeFlight(s, p, ProtocolAbuse);
    var s1 := BufferChunk(s, (p, q), total, offset, chunk);
    FlightFrame(s, s1);
    var s2 := DropSlots(s1, {(p, q)});
    FlightFrame(s1, s2);
    CompletedFlight(s2, p, q, s1.asm.reasm[(p, q)].r, order);
  }

  // ---- peers coming and going ----

  /** A newcomer owes nothing because nobody outside the table was ever asked. */
  lemma JoinFlight(s: Node, p: Peer)
    requires FlightInv(s)
    ensures FlightInv(Join(s, p))
  {
    if p !in s.peers {
      NothingDue(s, p);
      hide Due;
      var t := Join(s, p);
      forall x | x in t.peers ensures t.peers[x].pendingBytes == Due(t, x) { SameDue(s, t, x); }
    }
  }

  lemma NothingDue(s: Node, p: Peer)
    requires Connected(s) && p !in s.peers
    ensures Due(s, p) == 0
  {
    assert AsksTo(s.flight.pending, p) == {} && AsksTo(s.flight.hedge, p) == {};
  }

  /** Losing a peer drops its requests, promotes surviving hedges and disturbs nobody else's bill. */
  lemma DisconnectFlight(s: Node, p: Peer)
    requires FlightInv(s)
    ensures FlightInv(OnDisconnected(s, p))
  {
    DisconnectConnected(s, p);
    DisconnectTally(s, p);
  }

  lemma DisconnectTally(s: Node, p: Peer)
    requires FlightInv(s)
    ensures Tally(OnDisconnected(s, p))
  {
    hide Promoted, Unhedged, CountTo, SlotsOf, Total, Restrict, Buffered;
    var t := OnDisconnected(s, p);
    forall x | x in t.peers ensures t.peers[x].pendingBytes == Due(t, x) {
      assert x in s.peers && x != p && t.peers[x] == s.peers[x];
      PromotionKeepsCounts(s.flight.pending, s.flight.hedge, p, x);
    }
  }

  lemma DisconnectConnected(s: Node, p: Peer)
    requires Connected(s)
    ensures Connected(OnDisconnected(s, p))
  {}

  lemma PromotionKeepsCounts(pend: map<Seq, Ask>, hedge: map<Seq, Ask>, p: Peer, x: Peer)
    requires x != p && forall q :: q in hedge ==> q in pend && hedge[q].peer != pend[q].peer
    ensures CountTo(Promoted(pend, hedge, p), x) + CountTo(Unhedged(pend, hedge, p), x)
            == CountTo(pend, x) + CountTo(hedge, x)
  {
    var moved := set q | q in hedge && hedge[q].peer == x && pend[q].peer == p;
    MovedIntoPending(pend, hedge, p, x, moved);
    MovedOutOfHedge(pend, hedge, p, x, moved);
  }

  lemma MovedIntoPending(pend: map<Seq, Ask>, hedge: map<Seq, Ask>, p: Peer, x: Peer, moved: set<Seq>)
    requires x != p && hedge.Keys <= pend.Keys
    requires moved == set q | q in hedge && hedge[q].peer == x && pend[q].peer == p
    ensures CountTo(Promoted(pend, hedge, p), x) == CountTo(pend, x) + |moved|
  {
    assert AsksTo(Promoted(pend, hedge, p), x) == AsksTo(pend, x) + moved;
    assert AsksTo(pend, x) !! moved;
  }

  lemma MovedOutOfHedge(pend: map<Seq, Ask>, hedge: map<Seq, Ask>, p: Peer, x: Peer, moved: set<Seq>)
    requires x != p && hedge.Keys <= pend.Keys
    requires moved == set q | q in hedge && hedge[q].peer == x && pend[q].peer == p
    ensures CountTo(Unhedged(pend, hedge, p), x) + |moved| == CountTo(hedge, x)
  {
    assert AsksTo(Unhedged(pend, hedge, p), x) == AsksTo(hedge, x) - moved;
    assert moved <= AsksTo(hedge, x);
  }

  // ---- the tick ----

  lemma {:induction false} ServeFlight(s: Node, order: seq<Peer>)
    ensures SameFlight(s, TickServe(s, order))
    decreases |order|
  {
    if order != [] { ServeFlight(s, order[..|order| - 1]); }
  }

  lemma ExpireOneFlight(s: Node, q: Seq)
    requires FlightInv(s)
    ensures FlightInv(ExpireOne(s, q))
    ensures ExpireOne(s, q).now == s.now && !Stale(ExpireOne(s, q), q)
    ensures ExpireOne(s, q).flight == if Stale(s, q) then Flight(s.flight.pending - {q}, s.flight.hedge - {q})
            else s.flight
  {
    if Stale(s, q) {
      var p := s.flight.pending[q].peer;
      ClearPendingFlight(s, q);
      var c := ClearPending(s, q);
      var d := DropSlots(c, {(p, q)});
      FlightFrame(c, d);
      PenalizeSameFlight(d, p, Timeout);
      FlightFrame(d, Penalize(d, p, Timeout));
    }
  }

  /** After the sweep nothing it looked at is stale, and nothing new is in flight. */
  lemma {:induction false} ExpireFlight(s: Node, order: seq<Seq>)
    requires FlightInv(s)
    ensures FlightInv(TickExpire(s, order)) && TickExpire(s, order).now == s.now
    ensures TickExpire(s, order).flight.pending.Keys <= s.flight.pending.Keys
    ensures forall q :: q in TickExpire(s, order).flight.pending ==>
              TickExpire(s, order).flight.pending[q] == s.flight.pending[q]
    ensures forall q :: q in order ==> !Stale(TickExpire(s, order), q)
    decreases |order|
  {
    hide FlightInv, ExpireOne;
    if order != [] {
      var init, q := order[..|order| - 1], order[|order| - 1];
      ExpireFlight(s, init);
      ExpireOneFlight(TickExpire(s, init), q);
      assert forall x :: x in order ==> x in init || x == q;
    }
  }

  lemma SweptSameFlight(e: Node, unchoked: set<Peer>)
    ensures var t := TickChoke(TickTrim(TickUnpark(DropSlots(e, OldSlots(e)))), unchoked);
            SameFlight(e, t) && t.now == e.now
  {}

  lemma UpkeepFlight(s: Node, t: TickInput)
    requires FlightInv(s) && Enumerates(t.askOrder, s.flight.pending.Keys)
    ensures FlightInv(TickUpkeep(s, t)) && AllFresh(TickUpkeep(s, t))
  {
    hide Tally, Due, TickChoke, TickTrim, TickUnpark, DropSlots, OldSlots, TickExpire;
    ExpireFlight(s, t.askOrder);
    var e := TickExpire(s, t.askOrder);
    forall q | q in e.flight.pending ensures e.now < e.flight.pending[q].sent + PENDING_TIMEOUT_MS {
      assert q in t.askOrder && !Stale(e, q);
    }
    SweptSameFlight(e, t.unchoked);
    FlightFrame(e, TickUpkeep(s, t));
  }

  lemma AskTally(s: Node, flight: Flight, p: Peer)
    requires Tally(s) && p in s.peers
    requires forall x :: CountTo(flight.pending, x) + CountTo(flight.hedge, x)
                         == CountTo(s.flight.pending, x) + CountTo(s.flight.hedge, x) + (if x == p then 1 else 0)
    ensures Tally(Want1(s.(flight := flight), p))
  {
    var t := Want1(s.(flight := flight), p);
    forall x | x in t.peers ensures t.peers[x].pendingBytes == Due(t, x) {
      ScaleStep(CountTo(s.flight.pending, x) + CountTo(s.flight.hedge, x), s.env.segBytes);
      assert Due(t, x) == (CountTo(flight.pending, x) + CountTo(flight.hedge, x)) * s.env.segBytes;
    }
  }

  /** A new primary or hedge is billed to the peer it goes to and starts fresh. */
  lemma AskFlight(s: Node, q: Seq, p: Peer, redundant: bool)
    requires FlightInv(s) && AllFresh(s)
    ensures FlightInv(AskPeer(s, q, p, redundant)) && AllFresh(AskPeer(s, q, p, redundant))
  {
    hide Tally;
    var t := AskPeer(s, q, p, redundant);
    if t != s {
      var a := Ask(p, s.now);
      if q in s.flight.pending {
        forall x: Peer { CountPut(s.flight.hedge, q, a, x); }
        AskTally(s, s.flight.(hedge := s.flight.hedge[q := a]), p);
      } else {
        assert q !in s.flight.hedge;
        forall x: Peer { CountPut(s.flight.pending, q, a, x); }
        AskTally(s, s.flight.(pending := s.flight.pending[q := a]), p);
      }
    }
  }

  lemma {:induction false} IssueFlight(s: Node, rs: seq<Request>)
    requires FlightInv(s) && AllFresh(s)
    ensures FlightInv(IssueAll(s, rs)) && AllFresh(IssueAll(s, rs))
    decreases |rs|
  {
    hide Tally, Connected, AllFresh, AskPeer;
    if rs != [] {
      IssueFlight(s, rs[..|rs| - 1]);
      var t, r := IssueAll(s, rs[..|rs| - 1]), rs[|rs| - 1];
      if r.source.FromPeer? {
        AskFlight(t, r.seq_, r.source.peer, r.redundant);
      } else {
        FallbackFrame(t, r.seq_);
      }
    }
  }

  lemma FallbackFrame(s: Node, q: Seq)
    requires FlightInv(s) && AllFresh(s)
    ensures FlightInv(RequestFallback(s, q)) && AllFresh(RequestFallback(s, q))
  {
    FlightFrame(s, RequestFallback(s, q));
  }

  lemma TickFlight(s: Node, t: TickInput)
    requires FlightInv(s) && Legal(s, Tick(t))
    ensures FlightInv(OnTick(s, t)) && AllFresh(OnTick(s, t))
  {
    hide Tally, Connected, AllFresh, Due, TickUpkeep, IssueAll, TickServe, Input.Plan, PickInput;
    var r := TickRefill(TickPrune(TickCursor(s.(now := s.now + t.dt), t.playHead)));
    FlightFrame(s, r);
    ServeFlight(r, t.peerOrder);
    FlightFrame(r, TickServe(r, t.peerOrder));
    var u := TickUpkeep(TickServe(r, t.peerOrder), t);
    UpkeepFlight(TickServe(r, t.peerOrder), t);
    IssueFlight(u, PickInput(u, t.peerOrder).Plan(u.win.local, t.chance));
  }

  // ---- every step ----

  lemma ChatterFlight(s: Node, p: Peer, msg: Msg)
    requires FlightInv(s)
    ensures FlightInv(OnChatter(s, p, msg))
  {
    hide FlightInv, Penalize, Enqueue, OnBufferMap, Noted;
    PenalizeFlight(s, p, ProtocolAbuse);
    match msg
    case BufferMapMsg(base, bits) => BufferMapFlight(s, p, base, bits);
    case Want(seqs) => if |seqs| <= MAX_WANT_SEQS { FlightFrame(s, OnWant(s, p, seqs)); }
    case PeerGossip(_) =>
    case PresenceGossip(_) =>
    case _ => NoteFlight(s, p, msg);
  }

  lemma NoteFlight(s: Node, p: Peer, msg: Msg)
    requires FlightInv(s)
    ensures FlightInv(OnPeerNote(s, p, msg))
  {
    hide FlightInv;
    FlightFrame(s, OnPeerNote(s, p, msg));
  }

  lemma BufferMapFlight(s: Node, p: Peer, base: Seq, bits: Bytes)
    requires FlightInv(s)
    ensures FlightInv(OnBufferMap(s, p, base, bits))
  {
    hide FlightInv, Penalize, Join, FromBytes;
    PenalizeFlight(s, p, ProtocolAbuse);
    JoinFlight(s, p);
    JoinHas(s, p);
    if |bits| <= MAX_BITFIELD_BYTES { FlightFrame(Join(s, p), OnBufferMap(s, p, base, bits)); }
  }

  lemma InboundFlight(s: Node, p: Peer, msg: Msg, order: seq<Peer>)
    requires FlightInv(s)
    ensures FlightInv(OnInbound(s, p, msg, order))
  {
    hide FlightInv, OnSegmentData, ApplyEdge, OnChatter;
    match msg
    case SegmentData(q, total, offset, chunk) => SegmentDataFlight(s, p, q, total, offset, chunk, order);
    case EdgeAnnounce(q, id, sig) =>
      FlightFrame(s, See(s, q));
      ApplyEdgeFlight(See(s, q), q, id, order);
    case _ => ChatterFlight(s, p, msg);
  }

  lemma JoinHas(s: Node, p: Peer)
    ensures p in Join(s, p).peers
  {}

  lemma FallbackFlight(s: Node, q: Seq, bytes: Option<Bytes>, order: seq<Peer>)
    requires FlightInv(s) && q in s.inflight
    ensures FlightInv(OnFallback(s, q, bytes, order))
  {
    hide Tally, Connected, Due, ClearPending, DeliverVerified;
    var s1 := s.(inflight := s.inflight - {q});
    FlightFrame(s, s1);
    ClearPendingFlight(s1, q);
    if bytes.Some? {
      var c := ClearPending(s1, q);
      DeliverSameFlight(c, q, s.inflight[q], bytes.value, order);
      FlightFrame(c, DeliverVerified(c, q, s.inflight[q], bytes.value, order));
    }
  }

  lemma StepFlight(s: Node, e: Event)
    requires FlightInv(s) && Legal(s, e)
    ensures FlightInv(Step(s, e))
    ensures e.Tick? ==> AllFresh(Step(s, e))
  {
    hide FlightInv, OnTick, OnInbound, ApplyEdge, OnDisconnected, OnFallback, AllFresh, Join, Enumerates;
    match e
    case PeerConnected(p, refused) => JoinFlight(s, p); ConnectFlight(s, p);
    case PeerDisconnected(p) => DisconnectFlight(s, p);
    case Inbound(p, msg, order) => InboundFlight(s, p, msg, order);
    case LiveEdge(q, id, order) => ApplyEdgeFlight(s, q, id, order);
    case Tick(t) => TickFlight(s, t);
    case FallbackDone(q, bytes, order) => FallbackFlight(s, q, bytes, order);
    case _ => FlightFrame(s, Step(s, e));
  }

  lemma ConnectFlight(s: Node, p: Peer)
    requires FlightInv(Join(s, p))
    ensures FlightInv(Join(s, p).(links := s.links + {p}))
  {
    hide Join;
    var j := Join(s, p);
    assert j.links == s.links by { JoinLinks(s, p); }
    var t := j.(links := s.links + {p});
    hide Due;
    forall x | x in t.peers ensures t.peers[x].pendingBytes == Due(t, x) { SameDue(t, j, x); }
  }

  lemma JoinLinks(s: Node, p: Peer)
    ensures Join(s, p).links == s.links
  {}

  // ---- whom the engine asks ----

  lemma {:induction false} ViewsAreUnbanned(peers: map<Peer, PeerState>, order: seq<Peer>)
    ensures forall v :: v in ViewsOf(peers, order) ==>
              v.id in peers && !peers[v.id].banned && v.buffer == peers[v.id].buffer
    decreases |order|
  {
    if order != [] { ViewsAreUnbanned(peers, order[..|order| - 1]); }
  }

  /** The engine's plan names only peers in the table that are not banned and advertise the segment. */
  lemma PlanAvoidsTheBanned(s: Node, order: seq<Peer>, c: Chance, r: Request)
    requires r in PickInput(s, order).Plan(s.win.local, c) && r.source.FromPeer?
    ensures r.source.peer in s.peers && !s.peers[r.source.peer].banned && s.peers[r.source.peer].buffer.Has(r.seq_)
    ensures s.win.play <= r.seq_ < s.win.play + s.cfg.window && r.seq_ <= s.edge.head && !s.win.local.Has(r.seq_)
  {
    hide Input.Plan, ViewsOf;
    var inp := PickInput(s, order);
    PlanAsksOnlyWhatItMay(inp, s.win.local, c);
    ViewsAreUnbanned(s.peers, order);
    assert RequestOk(inp, s.win.local, r);
  }
}
