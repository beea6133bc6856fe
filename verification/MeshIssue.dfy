/** What a tick asks for: every planned request that can be made is made, and no other. */
module MeshIssue {
  import opened Common
  import opened BufferMaps
  import opened SegmentStores
  import opened Picker
  import opened MeshState

  /** A peer we may ask: in the table, linked, and not choking us. */
  predicate Open(s: Node, p: Peer) { p in s.peers && p in s.links && !s.peers[p].chokedBy }

  // ---- one request ----

  /** A request for a free segment becomes its primary; a redundant one beside another peer's primary becomes
      its hedge, if it has none; each bills one segment to the peer asked. Nothing else is asked: not for a
      parked segment, not of a peer we may not ask, not twice of one peer, and never without need. */
  lemma IssueExactly(s: Node, r: Request, p: Peer)
    requires r.source == FromPeer(p)
    ensures var t, q := Issue(s, r), r.seq_;
            if q in s.park.parked || !Open(s, p) then t == s
            else if q !in s.flight.pending then
              t.flight == Flight(s.flight.pending[q := Ask(p, s.now)], s.flight.hedge) && Billed(s, t, p)
            else if r.redundant && s.flight.pending[q].peer != p && q !in s.flight.hedge then
              t.flight == Flight(s.flight.pending, s.flight.hedge[q := Ask(p, s.now)]) && Billed(s, t, p)
            else t == s
  {}

  /** `p` is billed one more segment and nobody else anything. */
  ghost predicate Billed(s: Node, t: Node, p: Peer) {
    && t.peers.Keys == s.peers.Keys && p in s.peers
    && t.peers[p] == s.peers[p].(pendingBytes := s.peers[p].pendingBytes + s.env.segBytes)
    && forall x :: x in s.peers && x != p ==> t.peers[x] == s.peers[x]
  }

  /** A request to the seed or the durable floor starts a fetch under the known id, if one may start. */
  lemma FetchExactly(s: Node, r: Request)
    requires !r.source.FromPeer?
    ensures var q := r.seq_;
            Issue(s, r) == s.(inflight :=
              if q !in s.park.parked && s.env.fallback && q in s.edge.ids && q !in s.inflight
                  && |s.inflight| < MAX_FALLBACK_INFLIGHT
              then s.inflight[q := s.edge.ids[q]] else s.inflight)
  {}

  // ---- all of a tick's requests ----

  /** What issuing leaves alone. */
  ghost predicate Same(s: Node, t: Node) {
    && t.links == s.links && t.park == s.park && t.now == s.now && t.edge == s.edge && t.env == s.env
    && (forall p :: Open(t, p) <==> Open(s, p))
    && s.inflight.Keys <= t.inflight.Keys && s.flight.pending.Keys <= t.flight.pending.Keys
  }

  lemma IssueSame(s: Node, r: Request)
    ensures Same(s, Issue(s, r))
  {}

  lemma {:induction false} IssueAllSame(s: Node, rs: seq<Request>)
    ensures Same(s, IssueAll(s, rs))
    decreases |rs|
  {
    hide Issue;
    if rs != [] {
      IssueAllSame(s, rs[..|rs| - 1]);
      IssueSame(IssueAll(s, rs[..|rs| - 1]), rs[|rs| - 1]);
    }
  }

  /** A request that can be made leaves its segment in flight. */
  lemma {:induction false} IssuedIsInFlight(s: Node, rs: seq<Request>, r: Request, p: Peer)
    requires r in rs && r.source == FromPeer(p) && Open(s, p) && r.seq_ !in s.park.parked
    ensures r.seq_ in IssueAll(s, rs).flight.pending
    decreases |rs|
  {
    hide Issue, Open;
    var init, last := rs[..|rs| - 1], rs[|rs| - 1];
    var t := IssueAll(s, init);
    IssueAllSame(s, init);
    IssueSame(t, last);
    if r in init { IssuedIsInFlight(s, init, r, p); } else { IssueExactly(t, r, p); }
  }

  lemma {:induction false} FetchedOrFull(s: Node, rs: seq<Request>, r: Request)
    requires r in rs && !r.source.FromPeer? && r.seq_ !in s.park.parked && s.env.fallback && r.seq_ in s.edge.ids
    ensures r.seq_ in IssueAll(s, rs).inflight || |IssueAll(s, rs).inflight| >= MAX_FALLBACK_INFLIGHT
    decreases |rs|
  {
    hide Issue, Open;
    var init, last := rs[..|rs| - 1], rs[|rs| - 1];
    var t := IssueAll(s, init);
    IssueAllSame(s, init);
    IssueSame(t, last);
    if r in init {
      FetchedOrFull(s, init, r);
      Larger(t.inflight, Issue(t, last).inflight);
    } else {
      FetchExactly(t, r);
    }
  }

  lemma Larger(a: map<Seq, Digest>, b: map<Seq, Digest>)
    requires a.Keys <= b.Keys
    ensures |a| <= |b|
  {
    assert b.Keys == a.Keys + (b.Keys - a.Keys);
    assert |a| == |a.Keys| && |b| == |b.Keys|;
  }

  /** Nothing is in flight that was not before and is not planned; a new hedge was planned as redundant. */
  lemma {:induction false} OnlyPlanned(s: Node, rs: seq<Request>, q: Seq)
    ensures var f := IssueAll(s, rs).flight;
            && (q in f.pending && q !in s.flight.pending ==>
                  f.pending[q].sent == s.now && exists red :: Request(q, FromPeer(f.pending[q].peer), red) in rs)
            && (q in f.pending && q in s.flight.pending ==> f.pending[q] == s.flight.pending[q])
            && (q in f.hedge && q !in s.flight.hedge ==>
                  f.hedge[q].sent == s.now && Request(q, FromPeer(f.hedge[q].peer), true) in rs)
            && (q in s.flight.hedge ==> q in f.hedge && f.hedge[q] == s.flight.hedge[q])
    decreases |rs|
  {
    if rs != [] {
      var init, last := rs[..|rs| - 1], rs[|rs| - 1];
      assert rs == init + [last];
      OnlyPlanned(s, init, q);
      IssueAllSame(s, init);
      var t := IssueAll(s, init);
      if last.source.FromPeer? { IssueExactly(t, last, last.source.peer); } else { FetchExactly(t, last); }
      if q in IssueAll(s, rs).flight.pending && q !in s.flight.pending { WasPlanned(s, init, last, q); }
    }
  }

  lemma WasPlanned(s: Node, init: seq<Request>, last: Request, q: Seq)
    requires var f := IssueAll(s, init).flight;
             q in f.pending && q !in s.flight.pending ==>
               f.pending[q].sent == s.now && exists red :: Request(q, FromPeer(f.pending[q].peer), red) in init
    requires IssueAll(s, init).now == s.now
    ensures var f := Issue(IssueAll(s, init), last).flight;
            q in f.pending && q !in s.flight.pending ==>
              f.pending[q].sent == s.now && exists red :: Request(q, FromPeer(f.pending[q].peer), red) in init + [last]
  {
    var t := IssueAll(s, init);
    var u := Issue(t, last);
    if last.source.FromPeer? { IssueExactly(t, last, last.source.peer); } else { FetchExactly(t, last); }
    if q in u.flight.pending && q !in s.flight.pending {
      if q in t.flight.pending {
        var red :| Request(q, FromPeer(t.flight.pending[q].peer), red) in init;
        assert Request(q, FromPeer(u.flight.pending[q].peer), red) in init + [last];
      } else {
        assert last == Request(q, FromPeer(u.flight.pending[q].peer), last.redundant);
        assert last in init + [last];
      }
    }
  }

  // ---- primary and hedge ----

  /** A segment's requests, as they stand. */
  datatype Owed = Owed(first: Option<Ask>, second: Option<Ask>)

  function At(f: Flight, q: Seq): Owed {
    Owed(if q in f.pending then Some(f.pending[q]) else None, if q in f.hedge then Some(f.hedge[q]) else None)
  }

  lemma OtherSegment(s: Node, r: Request, q: Seq)
    requires r.seq_ != q
    ensures At(Issue(s, r).flight, q) == At(s.flight, q)
  {}

  lemma SnocAsking(rs: seq<Request>, q: Seq)
    requires rs != []
    ensures Asking(rs, q) == Asking(rs[..|rs| - 1], q) + if rs[|rs| - 1].seq_ == q then [rs[|rs| - 1]] else []
  {}

  /** A free segment planned of one peer, and redundantly of another, ends with a primary and a hedge. */
  lemma {:induction false} HedgePlaced(s: Node, rs: seq<Request>, q: Seq, a: Peer, b: Peer)
    requires At(s.flight, q) == Owed(None, None) && q !in s.park.parked && Open(s, a) && Open(s, b) && a != b
    requires Asking(rs, q) <= [Request(q, FromPeer(a), false), Request(q, FromPeer(b), true)]
    ensures var n := |Asking(rs, q)|;
            At(IssueAll(s, rs).flight, q)
                == Owed(if n > 0 then Some(Ask(a, s.now)) else None, if n > 1 then Some(Ask(b, s.now)) else None)
    decreases |rs|
  {
    hide Issue, Open, Asking;
    if rs == [] {
      assert Asking(rs, q) == [] by { NoAsking(q); }
    } else {
      var init, last := rs[..|rs| - 1], rs[|rs| - 1];
      SnocAsking(rs, q);
      HedgePlaced(s, init, q, a, b);
      IssueAllSame(s, init);
      var t := IssueAll(s, init);
      if last.seq_ != q {
        OtherSegment(t, last, q);
      } else {
        var n := |Asking(init, q)|;
        assert last == Asking(rs, q)[n];
        IssueExactly(t, last, if n == 0 then a else b);
      }
    }
  }

  lemma NoAsking(q: Seq)
    ensures Asking([], q) == []
  {}

  // ---- the tick ----

  /** The state a tick plans its requests in: cursor, prune, serving and upkeep done. */
  ghost function Planning(s: Node, t: TickInput): Node {
    TickUpkeep(TickServe(TickRefill(TickPrune(TickCursor(s.(now := s.now + t.dt), t.playHead))), t.peerOrder), t)
  }

  ghost function Planned(s: Node, t: TickInput): seq<Request> {
    PickInput(Planning(s, t), t.peerOrder).Plan(Planning(s, t).win.local, t.chance)
  }

  lemma TickIssues(s: Node, t: TickInput)
    ensures OnTick(s, t) == IssueAll(Planning(s, t), Planned(s, t))
  {
    hide TickUpkeep, TickServe, TickRefill, TickPrune, TickCursor, IssueAll, PickInput, Input.Plan;
  }

  /** After every tick, each missing, unparked panic-zone segment that somebody holds is in flight, provided its
      fastest holders may be asked. */
  lemma PanicIsInFlight(s: Node, t: TickInput, q: Seq, v: PeerView)
    requires var u := Planning(s, t); var inp := PickInput(u, t.peerOrder);
             && inp.Missing(u.win.local, q) && inp.ZoneOf(q) == Panic && v in inp.peers && v.buffer.Has(q)
             && q !in u.park.parked && forall w :: Fastest(inp, q, w) ==> Open(u, w.id)
    ensures q in OnTick(s, t).flight.pending
  {
    hide Planning, OnTick, IssueAll, PickInput, Input.Plan, Input.Missing, Input.ZoneOf, Fastest, Open;
    var u := Planning(s, t);
    var inp := PickInput(u, t.peerOrder);
    TickIssues(s, t);
    PanicIsServed(inp, u.win.local, t.chance, q, v);
    var r :| r in inp.Plan(u.win.local, t.chance) && AsksFastest(inp, q, r);
    var w :| Fastest(inp, q, w) && r.source == FromPeer(w.id);
    IssuedIsInFlight(u, Planned(s, t), r, w.id);
  }

  /** And one that no holder can deliver in time is being fetched from the durable floor, under its known id,
      or the floor is already as busy as it may be. */
  lemma PanicFallsBack(s: Node, t: TickInput, q: Seq)
    requires var u := Planning(s, t); var inp := PickInput(u, t.peerOrder);
             && inp.Missing(u.win.local, q) && inp.ZoneOf(q) == Panic && !InTime(inp, q)
             && q !in u.park.parked && u.env.fallback && q in u.edge.ids
    ensures q in OnTick(s, t).inflight || |OnTick(s, t).inflight| >= MAX_FALLBACK_INFLIGHT
  {
    hide Planning, OnTick, IssueAll, Input.Plan, Input.Missing, Input.ZoneOf, InTime, Input.Availability;
    var u := Planning(s, t);
    var inp := PickInput(u, t.peerOrder);
    TickIssues(s, t);
    PanicIsServedExactly(inp, u.win.local, t.chance, q);
    FetchedOrFull(u, Planned(s, t), if inp.seedAvailable then Request(q, Source.Seed, false)
        else Request(q, Bulletin, false));
  }

  // ---- hedging, end to end ----

  ghost predicate DistinctIds(vs: seq<PeerView>) { forall i, j :: 0 <= i < j < |vs| ==> vs[i].id != vs[j].id }

  lemma {:induction false} ViewsDistinct(peers: map<Peer, PeerState>, order: seq<Peer>)
    requires NoDup(order)
    ensures DistinctIds(ViewsOf(peers, order)) && forall v :: v in ViewsOf(peers, order) ==> v.id in order
    decreases |order|
  {
    if order != [] {
      var init, p := order[..|order| - 1], order[|order| - 1];
      assert order == init + [p] && p !in init;
      ViewsDistinct(peers, init);
      var vs := ViewsOf(peers, init);
      forall i | 0 <= i < |vs| ensures vs[i].id != p { assert vs[i] in vs; }
    }
  }

  lemma {:induction false} HoldersDistinct(vs: seq<PeerView>, q: Seq)
    requires DistinctIds(vs)
    ensures DistinctIds(Holders(vs, q))
    decreases |vs|
  {
    if vs != [] {
      var init, v := vs[..|vs| - 1], vs[|vs| - 1];
      HoldersDistinct(init, q);
      var hs := Holders(init, q);
      forall i | 0 <= i < |hs| ensures hs[i].id != v.id { assert hs[i] in init; }
    }
  }

  lemma {:induction false} PlaceDistinct(inp: Input, sorted: seq<PeerView>, v: PeerView)
    requires DistinctIds(sorted) && forall i :: 0 <= i < |sorted| ==> sorted[i].id != v.id
    ensures DistinctIds(inp.Place(sorted, v))
    ensures forall x :: x in inp.Place(sorted, v) ==> x in sorted || x == v
    decreases |sorted|
  {
    hide Input.ExpectedTime;
    if sorted != [] {
      PlaceDistinct(inp, sorted[1..], v);
      var r := inp.Place(sorted[1..], v);
      forall i | 0 <= i < |r| ensures r[i].id != sorted[0].id {
        assert r[i] in r;
        if r[i] != v { var k :| 1 <= k < |sorted| && sorted[k] == r[i]; }
      }
    }
  }

  lemma {:induction false} SortDistinct(inp: Input, vs: seq<PeerView>)
    requires DistinctIds(vs)
    ensures DistinctIds(inp.Sort(vs)) && forall x :: x in inp.Sort(vs) ==> x in vs
    decreases |vs|
  {
    hide Input.Place;
    if vs != [] {
      var init, v := vs[..|vs| - 1], vs[|vs| - 1];
      SortDistinct(inp, init);
      var sorted := inp.Sort(init);
      forall i | 0 <= i < |sorted| ensures sorted[i].id != v.id { assert sorted[i] in init; }
      PlaceDistinct(inp, sorted, v);
    }
  }

  /** After every tick, a free panic-zone segment that two holders may be asked for, one of them in time, has
      both a primary and a hedge, asked just now of two different holders, the primary a fastest one. */
  lemma PanicIsHedged(s: Node, t: TickInput, q: Seq)
    requires NoDup(t.peerOrder)
    requires var u := Planning(s, t); var inp := PickInput(u, t.peerOrder);
             && inp.Missing(u.win.local, q) && inp.ZoneOf(q) == Panic && InTime(inp, q) && inp.Availability(q) >= 2
             && q !in u.park.parked && At(u.flight, q) == Owed(None, None)
             && forall w :: w in inp.peers && w.buffer.Has(q) ==> Open(u, w.id)
    ensures var u, f := Planning(s, t), OnTick(s, t).flight; var inp := PickInput(u, t.peerOrder);
            && q in f.pending && q in f.hedge && f.pending[q].peer != f.hedge[q].peer
            && f.pending[q].sent == f.hedge[q].sent == u.now
            && (exists w :: Fastest(inp, q, w) && w.id == f.pending[q].peer)
            && (exists w :: w in inp.peers && w.buffer.Has(q) && w.id == f.hedge[q].peer)
  {
    hide Planning, OnTick, IssueAll, Input.Plan, Open, Fastest, Asking, InTime, Input.TimeToDeadline,
        Input.ExpectedTime,
         Input.BestUtility, ViewsOf;
    var u := Planning(s, t);
    var inp := PickInput(u, t.peerOrder);
    TickIssues(s, t);
    TimelyFirst(inp, q);
    FirstIsFastest(inp, q);
    var hs := inp.ByTime(q);
    ViewsDistinct(u.peers, t.peerOrder);
    HoldersDistinct(inp.peers, q);
    SortDistinct(inp, Holders(inp.peers, q));
    PlanUpToPerSegment(inp, u.win.local, inp.play + inp.window, q, Best(inp, u.win.local), t.chance);
    PlanIsUpTo(inp, u.win.local, t.chance);
    assert Asking(Planned(s, t), q) == [Request(q, FromPeer(hs[0].id), false), Request(q, FromPeer(hs[1].id), true)];
    HedgePlaced(u, Planned(s, t), q, hs[0].id, hs[1].id);
  }

  lemma PlanIsUpTo(inp: Input, local: BufMap, c: Chance)
    ensures inp.Plan(local, c) == inp.PlanUpTo(local, inp.play + inp.window, Best(inp, local), c)
  {}
}
