/** Runs that mark where a law of the mesh node ends. */
module MeshExamples {
  import opened Common
  import opened BufferMaps
  import opened Reassembly
  import opened SegmentStores
  import opened Picker
  import opened Wire
  import opened MeshState
  import opened MeshDelivery
  import opened MeshBuffers
  import opened MeshRuns
  import MeshChoke

  // ---- a node nobody is connected to ----

  ghost predicate Alone(s: Node) {
    && s.peers == map[] && s.links == {} && s.subscribers == {}
    && s.flight == Flight(map[], map[]) && s.asm == Assembly(map[], 0) && s.park == ParkingLot(map[], 0)
    && s.edge.edgeSeen == {}
  }

  lemma OneChunkCompletes(b: Bytes)
    requires 0 < |b| <= MAX_SEGMENT_BYTES
    ensures var r := Fresh(|b|).Add(0, b); r.Complete() && r.Assembled() == b && r.buffered == |b|
  {
    var m: map<nat, Bytes> := map[0 := b];
    assert m.Keys == {0} && Least({0}) == 0;
    assert m.Keys - {0} == {};
    assert b + [] == b;
  }

  /** Dropping the only slot empties the table. */
  lemma OnlySlotGone(s: Node, k: (Peer, Seq), b: Bytes)
    requires s.asm.reasm.Keys == {k} && s.asm.reasm[k].r.buffered == s.asm.reasmBytes
    ensures DropSlots(s, {k}).asm == Assembly(map[], 0)
  {
    hide Total;
    var m := Buffered(s.asm.reasm);
    assert m == map[k := s.asm.reasmBytes] && Restrict(m, {k}) == m;
    TotalTake(m, k);
    assert m - {k} == map[];
    EmptyTotal();
    assert s.asm.reasm - {k} == map[];
  }

  lemma EmptyTotal()
    ensures Total<(Peer, Seq)>(map[]) == 0
  {}

  lemma AloneAccept(s: Node, x: Peer, q: Seq, id: Digest, b: Bytes)
    requires Alone(s)
    ensures var t := AcceptSegment(s, x, q, id, b, []);
            Alone(t) && t.hist.sink == s.hist.sink + [(q, b)] && SameBeyondWindow(s, t)
            && t.win.local == s.win.local.Set(q) && t.win.play == s.win.play && t.win.floor == s.win.floor
  {
    hide Store.Insert, BufMap.Set, BufMap.Has;
    assert s.flight.pending - {q} == s.flight.pending;
  }

  ghost predicate SameBeyondWindow(s: Node, t: Node) {
    t.env == s.env && t.cfg == s.cfg && t.now == s.now && t.edge == s.edge && t.inflight == s.inflight
  }

  /** A whole segment pushed in one chunk by a stranger, inside the push window and matching its id. */
  lemma AloneReceives(s: Node, x: Peer, q: Seq, b: Bytes)
    requires Alone(s) && 0 < |b| <= MAX_SEGMENT_BYTES && !s.win.local.Has(q) && InPushWindow(s, q)
    requires q in s.edge.ids && s.env.crypto.hash(b) == s.edge.ids[q]
    ensures var t := OnInbound(s, x, SegmentData(q, |b|, 0, b), []);
            Alone(t) && t.hist.sink == s.hist.sink + [(q, b)] && SameBeyondWindow(s, t)
            && t.win.local == s.win.local.Set(q) && t.win.play == s.win.play && t.win.floor == s.win.floor
  {
    hide AcceptSegment, BufMap.Has, BufMap.Set, InPushWindow, Cover, Concat, DropSlots;
    OneChunkCompletes(b);
    var k := (x, q);
    var s1 := BufferChunk(s, k, |b|, 0, b);
    assert s1.asm.reasm.Keys == {k};
    OnlySlotGone(s1, k, b);
    var s2 := DropSlots(s1, {k});
    DropsOnlySlots(s1, {k});
    AloneAccept(s2, x, q, s.edge.ids[q], b);
  }

  lemma DropsOnlySlots(s: Node, ks: set<(Peer, Seq)>)
    ensures DropSlots(s, ks) == s.(asm := DropSlots(s, ks).asm)
  {
    hide Total, Restrict;
  }

  /** A tick of such a node only moves its cursor, prunes, and plans. */
  lemma AloneTick(s: Node, t: TickInput)
    requires Alone(s) && t.dt == 0 && t.peerOrder == [] && t.askOrder == []
    ensures var u := TickRefill(TickPrune(TickCursor(s, t.playHead)));
            OnTick(s, t) == IssueAll(u, PickInput(u, []).Plan(u.win.local, t.chance))
  {
    hide IssueAll, PickInput, Input.Plan, Store.PruneBelow, BufMap.PruneBelow, BufMap.Highest;
    assert s.(now := s.now + 0) == s;
    var u := TickRefill(TickPrune(TickCursor(s, t.playHead)));
    assert Alone(u);
    AloneUpkeep(u, t);
  }

  lemma AloneUpkeep(s: Node, t: TickInput)
    requires Alone(s) && t.askOrder == []
    ensures TickUpkeep(s, t) == s
  {
    hide Total;
    assert OldSlots(s) == {} && Behind(s) == {};
    NothingDropped(s);
    assert Restrict(ParkedLengths(s.park.parked), {}) == map[];
    EmptyParkedTotal();
  }

  lemma EmptyParkedTotal()
    ensures Total<Seq>(map[]) == 0
  {}

  lemma NothingDropped(s: Node)
    ensures DropSlots(s, {}) == s
  {
    hide Total;
    assert Restrict(Buffered(s.asm.reasm), {}) == map[];
    EmptyTotal();
    assert s.asm.reasm - {} == s.asm.reasm;
  }

  /** With nobody to ask, a one-segment window sends its missing segment to the durable floor. */
  lemma AlonePlans(s: Node, c: Chance)
    requires s.cfg.window == 1 && s.env.fallback
    ensures var plan := PickInput(s, []).Plan(s.win.local, c);
            if s.win.play <= s.edge.head && !s.win.local.Has(s.win.play)
            then |plan| == 1 && plan[0].seq_ == s.win.play && !plan[0].source.FromPeer?
            else plan == []
  {
    hide BufMap.Has, Input.BestUtility, Input.MidRequests, Input.PrefetchRequests;
    var inp, q := PickInput(s, []), s.win.play;
    var best := inp.BestUtility(s.win.local, q + 1);
    assert inp.PlanUpTo(s.win.local, q, best, c) == [];
    assert inp.PlanUpTo(s.win.local, q + 1, best, c) == [] + inp.RequestsFor(s.win.local, q, best, c);
    assert inp.TimeToDeadline(q) == 0;
    assert Holders([], q) == [] && inp.ByTime(q) == [];
  }

  lemma IssueNone(s: Node)
    ensures IssueAll(s, []) == s
  {}

  lemma IssueSingle(s: Node, r: Request)
    requires r.seq_ !in s.park.parked && !r.source.FromPeer?
    ensures IssueAll(s, [r]) == RequestFallback(s, r.seq_)
  {
    assert [r][..0] == [];
    IssueNone(s);
  }

  // ---- a floor result that repeats a delivery ----

  function Steady(playHead: Seq): Event { Tick(TickInput(0, playHead, [], [], {}, Chance(_ => 0.0, (_, _) => 1.0))) }

  /** A live viewer with a one-segment window that knows segment 0's id. */
  function Viewing(env: Env, weights: Weights, id: Digest): Node {
    Start(env, Config(Viewer, true, 1, 1, 0, weights), None, map[0 := id], 0, 1, false)
  }

  /** The first tick finds nobody holding segment 0 and fetches it from the floor. */
  lemma FirstTick(env: Env, weights: Weights, id: Digest)
    requires env.fallback
    ensures var s := Viewing(env, weights, id); var t := Step(s, Steady(0));
            Legal(s, Steady(0)) && Alone(t) && t == s.(inflight := map[0 := id])
  {
    hide IssueAll, PickInput, Input.Plan, OnTick;
    var s := Viewing(env, weights, id);
    var e := Steady(0);
    AloneTick(s, e.t);
    var u := TickRefill(TickPrune(TickCursor(s, 0)));
    assert u == s;
    AlonePlans(s, e.t.chance);
    var plan := PickInput(s, []).Plan(s.win.local, e.t.chance);
    assert plan == [plan[0]];
    IssueSingle(s, plan[0]);
  }

  /** The second tick moves play to 2, and the prune forgets segment 0. */
  lemma SecondTick(s: Node)
    requires Alone(s) && s.env.fallback && s.cfg.role == Viewer && s.cfg.live && s.cfg.window == 1 && s.cfg.budget == 0
    requires s.win.local == BufMap(0, [true, false, true]) && s.win.play == 0 && s.win.floor == 0 && s.edge.head == 2
    ensures var t := Step(s, Steady(2));
            Legal(s, Steady(2)) && t.win.floor == 1 && t.win.local == BufMap(1, [false, true]) && t.env == s.env
            && t.inflight == s.inflight && t.hist == s.hist && t.subscribers == {}
  {
    hide IssueAll, PickInput, Input.Plan, OnTick, Store.PruneBelow;
    var e := Steady(2);
    AloneTick(s, e.t);
    assert s.win.local.Highest() == Some(2);
    var u := TickRefill(TickPrune(TickCursor(s, 2)));
    assert s.win.local.bits[1..] == [false, true];
    AlonePlans(u, e.t.chance);
    IssueNone(u);
  }

  lemma EdgeLearned(s: Node, q: Seq, id: Digest)
    requires Alone(s) && q <= U64_MAX
    ensures Legal(s, LiveEdge(q, id, [])) && Alone(Step(s, LiveEdge(q, id, [])))
            && Step(s, LiveEdge(q, id, [])) == Record(s, q, id)
  {}

  /** Two pushed segments: 0 is played from a peer while its floor fetch is under way, then 2. */
  lemma TwoPushes(s: Node, x: Peer, id: Digest, b: Bytes) returns (s2: Node, s3: Node, s4: Node)
    requires Alone(s) && 0 < |b| <= MAX_SEGMENT_BYTES && s.env.crypto.hash(b) == id && s.edge.head == 0
             && s.hist.sink == []
    requires s.win.local == BufMap(0, []) && s.win.play == 0 && s.win.floor == 0 && s.edge.ids == map[0 := id]
    ensures var push0, edge2, push2 := Inbound(x, SegmentData(0, |b|, 0, b), []), LiveEdge(2, id, []),
                                       Inbound(x, SegmentData(2, |b|, 0, b), []);
            && Legal(s, push0) && s2 == Step(s, push0) && Legal(s2, edge2) && s3 == Step(s2, edge2)
            && Legal(s3, push2) && s4 == Step(s3, push2)
    ensures Alone(s4) && s4.hist.sink == [(0, b), (2, b)] && s4.win.local == BufMap(0, [true, false, true])
    ensures s4.win.play == 0 && s4.win.floor == 0 && s4.edge.head == 2
    ensures s4.env == s.env && s4.cfg == s.cfg && s4.inflight == s.inflight
  {
    hide OnInbound, ApplyEdge;
    AloneReceives(s, x, 0, b);
    s2 := Step(s, Inbound(x, SegmentData(0, |b|, 0, b), []));
    assert s2.win.local == BufMap(0, [true]);
    EdgeLearned(s2, 2, id);
    s3 := Step(s2, LiveEdge(2, id, []));
    AloneReceives(s3, x, 2, b);
    s4 := Step(s3, Inbound(x, SegmentData(2, |b|, 0, b), []));
  }

  /** A run of a live viewer, from its start, in which a floor result plays a segment a second time. */
  lemma FloorCanRepeat(env: Env, weights: Weights, x: Peer, id: Digest, b: Bytes)
    returns (tr: seq<Node>, es: seq<Event>)
    requires env.fallback && env.crypto.hash(b) == id && 0 < |b| <= MAX_SEGMENT_BYTES
    ensures IsRun(tr, es) && |es| > 0 && (forall k :: 0 <= k < |es| ==> !es[k].Produced?)
    ensures FloorBreaks(tr[|es| - 1], es[|es| - 1]) && !Distinct(tr[|es|].hist.sink)
  {
    hide Step, Legal, OnFallback;
    var s0 := Viewing(env, weights, id);
    FirstTick(env, weights, id);
    var s1 := Step(s0, Steady(0));
    var s2, s3, s4 := TwoPushes(s1, x, id, b);
    SecondTick(s4);
    var s5 := Step(s4, Steady(2));
    var last := FallbackDone(0, Some(b), []);
    FloorLegal(s5, last);
    var s6 := Step(s5, last);
    tr := [s0, s1, s2, s3, s4, s5, s6];
    es := [Steady(0), Inbound(x, SegmentData(0, |b|, 0, b), []), LiveEdge(2, id, []),
           Inbound(x, SegmentData(2, |b|, 0, b), []), Steady(2), last];
    FloorEffect(s5, 0, b, []);
    assert s5.hist.sink[0].0 == 0;
    SinkRepeats(s5.hist.sink, 0, b);
  }

  lemma FloorLegal(s: Node, e: Event)
    requires e.FallbackDone? && e.q in s.inflight && e.q <= U64_MAX && e.order == [] && s.subscribers == {}
    ensures Legal(s, e) && Step(s, e) == OnFallback(s, e.q, e.bytes, e.order)
  {}

  // ---- a parked copy that repeats a floor result ----

  /** One quiet neighbour that advertises segment 0. */
  ghost predicate Paired(s: Node, p: Peer) {
    && s.peers.Keys == {p} && s.links == {p} && s.subscribers == {} && s.edge.edgeSeen == {} && s.meter.chokeMs == 0
    && s.asm == Assembly(map[], 0) && s.park == ParkingLot(map[], 0) && s.flight.hedge == map[] && s.now == 0
    && s.peers[p].queue == [] && !s.peers[p].choked && !s.peers[p].chokedBy && !s.peers[p].banned
    && s.peers[p].buffer == BufMap(0, [true])
  }

  function PairTick(p: Peer, playHead: Seq, asks: seq<Seq>): Event {
    Tick(TickInput(0, playHead, [p], asks, {p}, Chance(_ => 0.0, (_, _) => 1.0)))
  }

  lemma Introduced(s: Node, p: Peer)
    requires Alone(s) && s.now == 0 && s.meter.chokeMs == 0
    ensures Legal(s, PeerConnected(p, false))
    ensures var t := Step(s, PeerConnected(p, false)); Legal(t, Inbound(p, Have(0), []))
    ensures var u := Step(Step(s, PeerConnected(p, false)), Inbound(p, Have(0), []));
            Paired(u, p) && u.flight.pending == map[] && u.env == s.env && u.cfg == s.cfg && u.edge == s.edge
            && u.win == s.win && u.inflight == s.inflight && u.hist.sink == s.hist.sink
  {
    var t := Step(s, PeerConnected(p, false));
    assert t == Note(s, Joined(p)).(peers := map[p := NEWCOMER], links := {p});
    hide OnConnected;
    assert NEWCOMER.buffer.Set(0) == BufMap(0, [true]);
    assert Step(t, Inbound(p, Have(0), [])) == t.(peers := map[p := NEWCOMER.(buffer := BufMap(0, [true]))]);
  }

  /** A tick beside one quiet neighbour, with nothing stale, only moves the cursor, prunes, and plans. */
  lemma PairedTick(s: Node, p: Peer, playHead: Seq, asks: seq<Seq>)
    requires Paired(s, p) && s.cfg.role == Viewer && (asks == [] || (asks == [0] && !Stale(s, 0)))
    ensures var u := TickRefill(TickPrune(TickCursor(s, playHead))); var e := PairTick(p, playHead, asks);
            OnTick(s, e.t) == IssueAll(u, PickInput(u, [p]).Plan(u.win.local, e.t.chance))
  {
    hide IssueAll, PickInput, Input.Plan, Store.PruneBelow, BufMap.PruneBelow, BufMap.Highest;
    assert s.(now := s.now + 0) == s;
    var u := TickRefill(TickPrune(TickCursor(s, playHead)));
    assert Paired(u, p) && u.flight == s.flight;
    hide TickRefill, TickPrune, TickCursor;
    PairedServe(u, p);
    PairedUpkeep(u, p, PairTick(p, playHead, asks).t);
  }

  lemma PairedServe(s: Node, p: Peer)
    requires Paired(s, p)
    ensures TickServe(s, [p]) == s
  {
    assert [p][..0] == [] && TickServe(s, []) == s;
    assert s.peers[p := s.peers[p].(queue := [])] == s.peers;
  }

  lemma PairedUpkeep(s: Node, p: Peer, t: TickInput)
    requires Paired(s, p) && s.cfg.role == Viewer && t.unchoked == {p}
    requires t.askOrder == [] || (t.askOrder == [0] && !Stale(s, 0))
    ensures TickUpkeep(s, t) == s
  {
    hide Total;
    assert TickExpire(s, []) == s;
    if t.askOrder == [0] { assert [0][..0] == []; assert TickExpire(s, [0]) == ExpireOne(s, 0); }
    assert OldSlots(s) == {} && Behind(s) == {};
    NothingDropped(s);
    assert Restrict(ParkedLengths(s.park.parked), {}) == map[];
    EmptyParkedTotal();
    assert (map x | x in s.peers :: s.peers[x].(choked := x !in {p})) == s.peers;
  }

  /** The missing segment is asked of the neighbour, slow or not. */
  lemma PairedPlans(s: Node, p: Peer, c: Chance)
    requires Paired(s, p) && s.cfg.window == 1 && s.win.play == 0 && !s.win.local.Has(0)
    ensures var plan := PickInput(s, [p]).Plan(s.win.local, c);
            plan != [] && plan[|plan| - 1].seq_ == 0 && plan[|plan| - 1].source == FromPeer(p)
            && (forall i :: 0 <= i < |plan| - 1 ==> plan[i].seq_ == 0 && !plan[i].source.FromPeer?)
  {
    hide BufMap.Has, Input.BestUtility, Input.MidRequests, Input.PrefetchRequests, Input.ExpectedTime;
    var inp := PickInput(s, [p]);
    var best := inp.BestUtility(s.win.local, 1);
    assert inp.PlanUpTo(s.win.local, 0, best, c) == [];
    assert inp.PlanUpTo(s.win.local, 1, best, c) == [] + inp.RequestsFor(s.win.local, 0, best, c);
    assert inp.TimeToDeadline(0) == 0;
    OneHolder(s, p);
  }

  lemma OneHolder(s: Node, p: Peer)
    requires Paired(s, p)
    ensures |PickInput(s, [p]).ByTime(0)| == 1 && PickInput(s, [p]).ByTime(0)[0].id == p
  {
    hide Input.ExpectedTime;
    assert [p][..0] == [] && ViewsOf(s.peers, []) == [];
    var vs := ViewsOf(s.peers, [p]);
    assert |vs| == 1 && vs[0].id == p && vs[0].buffer == BufMap(0, [true]);
    assert vs[..0] == [] && Holders([], 0) == [];
    var hs := Holders(vs, 0);
    assert hs == [vs[0]];
    assert hs[..0] == [] && PickInput(s, [p]).Sort([]) == [];
  }

  lemma {:induction false} FloorRequestsIdle(s: Node, rs: seq<Request>)
    requires 0 in s.inflight && forall i :: 0 <= i < |rs| ==> rs[i].seq_ == 0 && !rs[i].source.FromPeer?
    ensures IssueAll(s, rs) == s
    decreases |rs|
  {
    if rs != [] { FloorRequestsIdle(s, rs[..|rs| - 1]); }
  }

  lemma PairedAsks(s: Node, p: Peer)
    requires Paired(s, p) && s.flight.pending == map[] && 0 in s.inflight && s.cfg.role == Viewer && s.cfg.live
    requires s.cfg.window == 1 && s.win.play == 0 && s.win.floor == 0 && s.win.local == BufMap(0, [])
             && s.edge.head == 0
    requires s.cfg.budget == 0
    ensures Legal(s, PairTick(p, 0, []))
    ensures var t := Step(s, PairTick(p, 0, []));
            Paired(t, p) && t.flight.pending == map[0 := Ask(p, 0)] && t.env == s.env && t.cfg == s.cfg
            && t.edge == s.edge && t.win == s.win && t.inflight == s.inflight && t.hist.sink == s.hist.sink
  {
    hide IssueAll, Input.Plan, OnTick, PickInput;
    var e := PairTick(p, 0, []);
    PairedTick(s, p, 0, []);
    assert TickRefill(TickPrune(TickCursor(s, 0))) == s;
    PairedPlans(s, p, e.t.chance);
    var plan := PickInput(s, [p]).Plan(s.win.local, e.t.chance);
    FloorRequestsIdle(s, plan[..|plan| - 1]);
    IssueLast(s, plan);
  }

  lemma IssueLast(s: Node, rs: seq<Request>)
    requires rs != [] && IssueAll(s, rs[..|rs| - 1]) == s
    ensures IssueAll(s, rs) == Issue(s, rs[|rs| - 1])
  {}

  /** The player jumps ahead and the prune forgets segment 0's id, with its request still young. */
  lemma PairedJumps(s: Node, p: Peer)
    requires Paired(s, p) && s.flight.pending == map[0 := Ask(p, 0)] && s.cfg.role == Viewer && s.cfg.live
    requires s.cfg.window == 1 && s.win.play == 0 && s.win.floor == 0 && s.win.local == BufMap(0, [])
             && s.edge.head == 0
    requires s.edge.ids.Keys == {0} && s.cfg.budget == 0
    ensures Legal(s, PairTick(p, 2, [0]))
    ensures var t := Step(s, PairTick(p, 2, [0]));
            Paired(t, p) && t.flight == s.flight && t.env == s.env && t.cfg == s.cfg && t.win.floor == 1
            && t.win.local == BufMap(1, []) && t.edge.ids == map[] && t.inflight == s.inflight
  {
    hide IssueAll, Input.Plan, OnTick, Store.PruneBelow;
    var e := PairTick(p, 2, [0]);
    PairedTick(s, p, 2, [0]);
    assert s.win.local.Highest() == None;
    var u := TickRefill(TickPrune(TickCursor(s, 2)));
    NothingProduced(u, [p], e.t.chance);
    IssueNone(u);
  }

  lemma NothingProduced(s: Node, order: seq<Peer>, c: Chance)
    requires s.win.play > s.edge.head
    ensures PickInput(s, order).Plan(s.win.local, c) == []
  {
    hide Input.Plan;
    PlanAsksOnlyWhatItMay(PickInput(s, order), s.win.local, c);
    var plan := PickInput(s, order).Plan(s.win.local, c);
    SomeMember(plan);
  }

  lemma SomeMember<T>(xs: seq<T>)
    ensures xs == [] || exists x :: x in xs
  {
    if xs != [] { assert xs[0] in xs; }
  }

  /** The neighbour's answer arrives after its id was forgotten, and is parked. */
  lemma PairedParks(s: Node, p: Peer, b: Bytes)
    requires Paired(s, p) && s.flight.pending == map[0 := Ask(p, 0)] && s.edge.ids == map[]
    requires s.win.local == BufMap(1, []) && 0 < |b| <= MAX_SEGMENT_BYTES
    ensures Legal(s, Inbound(p, SegmentData(0, |b|, 0, b), []))
    ensures var t := Step(s, Inbound(p, SegmentData(0, |b|, 0, b), []));
            t.env == s.env && t.win == s.win && t.inflight == s.inflight && t.subscribers == {}
            && 0 in t.park.parked && t.park.parked[0].raw == b
  {
    hide ClearPending, Cover, Concat, DropSlots, AcceptSegment, Penalize;
    OneChunkCompletes(b);
    var k := (p, 0);
    var s1 := BufferChunk(s, k, |b|, 0, b);
    assert s1.asm.reasm.Keys == {k};
    OnlySlotGone(s1, k, b);
    DropsOnlySlots(s1, {k});
    var s2 := DropSlots(s1, {k});
    ClearsOnlyRequests(s2, 0);
  }

  lemma ClearsOnlyRequests(s: Node, q: Seq)
    ensures var t := ClearPending(s, q);
            t == s.(flight := t.flight, peers := t.peers)
  {}

  /** A run of a live viewer in which the floor plays a segment first and the parked copy plays it again
      when its id is announced once more. */
  lemma ParkedCopyCanRepeat(env: Env, weights: Weights, p: Peer, id: Digest, b: Bytes)
    returns (tr: seq<Node>, es: seq<Event>)
    requires env.fallback && env.crypto.hash(b) == id && 0 < |b| <= MAX_SEGMENT_BYTES
    ensures IsRun(tr, es) && |es| > 1 && (forall k :: 0 <= k < |es| ==> !es[k].Produced?)
    ensures FloorBreaks(tr[|es| - 2], es[|es| - 2]) && Distinct(tr[|es| - 1].hist.sink)
    ensures es[|es| - 1].LiveEdge? && !Distinct(tr[|es|].hist.sink)
  {
    hide Step, Legal, OnFallback, ApplyEdge, Distinct;
    var s0 := Viewing(env, weights, id);
    FirstTick(env, weights, id);
    var s1 := Step(s0, Steady(0));
    Introduced(s1, p);
    var s2 := Step(s1, PeerConnected(p, false));
    var s3 := Step(s2, Inbound(p, Have(0), []));
    PairedAsks(s3, p);
    var s4 := Step(s3, PairTick(p, 0, []));
    PairedJumps(s4, p);
    var s5 := Step(s4, PairTick(p, 2, [0]));
    PairedParks(s5, p, b);
    var s6 := Step(s5, Inbound(p, SegmentData(0, |b|, 0, b), []));
    var es6 := [Steady(0), PeerConnected(p, false), Inbound(p, Have(0), []), PairTick(p, 0, []),
                PairTick(p, 2, [0]), Inbound(p, SegmentData(0, |b|, 0, b), [])];
    var tr6 := [s0, s1, s2, s3, s4, s5, s6];
    DeliveryKept(tr6, es6, 6);
    var floor, edge := FallbackDone(0, Some(b), []), LiveEdge(0, id, []);
    FloorLegal(s6, floor);
    var s7 := Step(s6, floor);
    ParkedCopyPlaysAgain(s6, 0, b, [], []);
    EdgeLegal(s6, b, id);
    var s8 := Step(s7, edge);
    tr, es := tr6 + [s7, s8], es6 + [floor, edge];
    LongerRun(tr6, es6, s7, s8, floor, edge);
  }

  lemma EdgeLegal(s: Node, b: Bytes, id: Digest)
    requires 0 in s.inflight && s.subscribers == {}
    ensures var t := OnFallback(s, 0, Some(b), []);
            Legal(t, LiveEdge(0, id, [])) && Step(t, LiveEdge(0, id, [])) == ApplyEdge(t, 0, id, [])
  {
    hide ApplyEdge, Store.Insert, Store.Get, BufMap.Set, BufMap.Has;
  }

  lemma LongerRun(tr: seq<Node>, es: seq<Event>, s: Node, t: Node, e: Event, f: Event)
    requires IsRun(tr, es) && Legal(tr[|es|], e) && s == Step(tr[|es|], e) && Legal(s, f) && t == Step(s, f)
    ensures IsRun(tr + [s, t], es + [e, f])
  {
    hide Step, Legal, IsStart;
    var tr', es' := tr + [s, t], es + [e, f];
    forall i | 0 <= i < |es'| ensures Legal(tr'[i], es'[i]) && tr'[i + 1] == Step(tr'[i], es'[i]) {
      if i < |es| { assert tr'[i] == tr[i] && tr'[i + 1] == tr[i + 1] && es'[i] == es[i]; }
    }
  }

  // ---- reassembly filled to the last byte ----

  function Zeros(n: nat): Bytes { seq(n, _ => 0) }

  /** All but the first byte of a segment of the largest size, and then one byte of it a second time: the
      slot counts as many bytes as it announced, and still lacks the first. */
  function Most(): Reasm { Reasm(MAX_SEGMENT_BYTES, map[1 := Zeros(MAX_SEGMENT_BYTES - 1)], MAX_SEGMENT_BYTES - 1) }
  function Full(): Reasm {
    Reasm(MAX_SEGMENT_BYTES, map[1 := Zeros(MAX_SEGMENT_BYTES - 1), 2 := [0]], MAX_SEGMENT_BYTES)
  }

  lemma NeverWhole()
    ensures Fresh(MAX_SEGMENT_BYTES).Add(0, []) == Fresh(MAX_SEGMENT_BYTES) && !Fresh(MAX_SEGMENT_BYTES).Complete()
    ensures Fresh(MAX_SEGMENT_BYTES).Add(1, Zeros(MAX_SEGMENT_BYTES - 1)) == Most() && !Most().Complete()
    ensures Most().Add(2, [0]) == Full() && !Full().Complete()
  {
    LacksFirst(Most());
    LacksFirst(Full());
    assert Fresh(MAX_SEGMENT_BYTES).chunks.Keys == {};
  }

  lemma LacksFirst(r: Reasm)
    requires 0 !in r.chunks && 1 in r.chunks
    ensures !r.Complete()
  {
    assert Least(r.chunks.Keys) in r.chunks;
  }

  /** A viewer joined 63 segments behind the head, with one neighbour. */
  ghost predicate Exposed(s: Node, p: Peer) {
    && p in s.peers && !s.peers[p].banned && s.subscribers == {} && s.win.local == BufMap(0, []) && s.win.play == 0
    && s.edge.head == 63
  }

  /** A chunk for an open slot, or one that opens a slot while nothing is buffered, just gets buffered. */
  lemma ChunkBuffered(s: Node, p: Peer, q: Seq, offset: nat, chunk: Bytes)
    requires Exposed(s, p) && q < 64
    requires (p, q) in s.asm.reasm || (|s.asm.reasm| < MAX_REASM && s.asm.reasmBytes == 0)
    requires !SlotAt(s, (p, q), MAX_SEGMENT_BYTES).r.Add(offset, chunk).Complete()
    ensures var e := Inbound(p, SegmentData(q, MAX_SEGMENT_BYTES, offset, chunk), []);
            Legal(s, e) && Step(s, e) == BufferChunk(s, (p, q), MAX_SEGMENT_BYTES, offset, chunk)
  {
    hide Reasm.Add, Reasm.Gain, Reasm.Complete, Penalize, Completed, DropSlots;
  }

  /** `a` slots are open; the first `b` lack one byte, the first `c` of them count it all the same. */
  function SlotOf(q: Seq, b: nat, c: nat): Reasm {
    if q < c then Full() else if q < b then Most() else Fresh(MAX_SEGMENT_BYTES)
  }

  ghost predicate Stage(base: Node, s: Node, p: Peer, a: nat, b: nat, c: nat) {
    && s == base.(asm := s.asm) && |s.asm.reasm| == a
    && s.asm.reasmBytes == b * (MAX_SEGMENT_BYTES - 1) + c
    && (forall k :: k in s.asm.reasm ==> k.0 == p && k.1 < a)
    && (forall q: Seq :: q < a ==> (p, q) in s.asm.reasm && s.asm.reasm[(p, q)].r == SlotOf(q, b, c))
  }

  lemma PutStage(base: Node, s: Node, t: Node, p: Peer, a: nat, b: nat, c: nat, q: Seq, slot: Slot, a': nat, b': nat,
                 c': nat)
    requires Stage(base, s, p, a, b, c) && t == s.(asm := Assembly(s.asm.reasm[(p, q) := slot], t.asm.reasmBytes))
    requires t.asm.reasmBytes == b' * (MAX_SEGMENT_BYTES - 1) + c' && slot.r == SlotOf(q, b', c')
    requires a' == (if q < a then a else a + 1) && q <= a
    requires forall x: Seq :: x < a' && x != q ==> SlotOf(x, b', c') == SlotOf(x, b, c)
    ensures Stage(base, t, p, a', b', c')
  {
    hide SlotOf;
    PutSize(s.asm.reasm, (p, q), slot);
  }

  lemma OpenOne(base: Node, s: Node, p: Peer, a: nat) returns (e: Event)
    requires Exposed(base, p) && Stage(base, s, p, a, 0, 0) && a < 64
    ensures Legal(s, e) && Stage(base, Step(s, e), p, a + 1, 0, 0)
  {
    hide Reasm.Add, Reasm.Gain, Reasm.Complete, Most, Full, Fresh, Step, Legal;
    NeverWhole();
    Gains();
    assert (p, a) !in s.asm.reasm;
    ChunkBuffered(s, p, a, 0, []);
    e := Inbound(p, SegmentData(a, MAX_SEGMENT_BYTES, 0, []), []);
    PutStage(base, s, Step(s, e), p, a, 0, 0, a, Slot(Fresh(MAX_SEGMENT_BYTES), s.now), a + 1, 0, 0);
  }

  lemma NearlyFillOne(base: Node, s: Node, p: Peer, b: nat) returns (e: Event)
    requires Exposed(base, p) && Stage(base, s, p, 64, b, 0) && b < 64
    ensures Legal(s, e) && Stage(base, Step(s, e), p, 64, b + 1, 0)
  {
    hide Reasm.Add, Reasm.Gain, Reasm.Complete, Most, Full, Fresh, Step, Legal, Zeros;
    NeverWhole();
    Gains();
    var was := s.asm.reasm[(p, b)];
    ChunkBuffered(s, p, b, 1, Zeros(MAX_SEGMENT_BYTES - 1));
    e := Inbound(p, SegmentData(b, MAX_SEGMENT_BYTES, 1, Zeros(MAX_SEGMENT_BYTES - 1)), []);
    ScaleStep(b, MAX_SEGMENT_BYTES - 1);
    PutStage(base, s, Step(s, e), p, 64, b, 0, b, Slot(Most(), was.created), 64, b + 1, 0);
  }

  lemma FillOne(base: Node, s: Node, p: Peer, c: nat) returns (e: Event)
    requires Exposed(base, p) && Stage(base, s, p, 64, 64, c) && c < 64
    ensures Legal(s, e) && Stage(base, Step(s, e), p, 64, 64, c + 1)
  {
    hide Reasm.Add, Reasm.Gain, Reasm.Complete, Most, Full, Fresh, Step, Legal;
    NeverWhole();
    Gains();
    var was := s.asm.reasm[(p, c)];
    ChunkBuffered(s, p, c, 2, [0]);
    e := Inbound(p, SegmentData(c, MAX_SEGMENT_BYTES, 2, [0]), []);
    PutStage(base, s, Step(s, e), p, 64, 64, c, c, Slot(Full(), was.created), 64, 64, c + 1);
  }

  lemma Gains()
    ensures Fresh(MAX_SEGMENT_BYTES).Gain(0, []) == 0
    ensures Fresh(MAX_SEGMENT_BYTES).Gain(1, Zeros(MAX_SEGMENT_BYTES - 1)) == MAX_SEGMENT_BYTES - 1
    ensures Most().Gain(2, [0]) == 1
  {}

  lemma {:induction false} Filled(base: Node, tr0: seq<Node>, es0: seq<Event>, p: Peer, n: nat)
    returns (tr: seq<Node>, es: seq<Event>)
    requires IsRun(tr0, es0) && tr0[|es0|] == base && Exposed(base, p) && base.asm == Assembly(map[], 0) && n <= 192
    ensures IsRun(tr, es) && tr[0] == tr0[0]
    ensures Stage(base, tr[|es|], p, Min(n, 64), Min(SatSub(n, 64), 64), SatSub(n, 128))
    decreases n
  {
    hide Step, Legal, IsStart, Exposed;
    if n == 0 {
      tr, es := tr0, es0;
    } else {
      tr, es := Filled(base, tr0, es0, p, n - 1);
      var s := tr[|es|];
      var e;
      if n <= 64 {
        e := OpenOne(base, s, p, n - 1);
      } else if n <= 128 {
        e := NearlyFillOne(base, s, p, n - 65);
      } else {
        e := FillOne(base, s, p, n - 129);
      }
      RunExtends(tr, es, e, Step(s, e));
      tr, es := tr + [Step(s, e)], es + [e];
    }
  }

  /** A run of a viewer that buffers the bound exactly, eight times the announced cap: 64 empty messages
      open as many slots of the largest size while nothing is counted, and then they fill. */
  lemma ReassemblyBoundIsReached(env: Env, cfg: Config, p: Peer) returns (tr: seq<Node>, es: seq<Event>)
    ensures IsRun(tr, es) && tr[0].env == env && tr[0].cfg == cfg
    ensures tr[|es|].asm.reasmBytes == MAX_REASM * MAX_SEGMENT_BYTES == 8 * MAX_REASM_BYTES
  {
    var s0 := Start(env, cfg, None, map[], 63, 1, false);
    var e0 := PeerConnected(p, false);
    var s1 := Step(s0, e0);
    assert Exposed(s1, p) && s1.asm == Assembly(map[], 0);
    var tr0, es0 := [s0, s1], [e0];
    hide Step, Stage;
    tr, es := Filled(s1, tr0, es0, p, 192);
    StageBytes(s1, tr[|es|], p);
  }

  lemma StageBytes(base: Node, s: Node, p: Peer)
    requires Stage(base, s, p, 64, 64, 64)
    ensures s.asm.reasmBytes == MAX_REASM * MAX_SEGMENT_BYTES
  {}

  // ---- a seed that chokes ----

  /** A run of a viewer that chokes its neighbour, becomes a seed, and goes on choking it. */
  lemma SeedCanChoke(env: Env, weights: Weights, p: Peer) returns (tr: seq<Node>, es: seq<Event>)
    ensures IsRun(tr, es) && tr[|es|].cfg.role == Role.Seed && MeshChoke.Choked(tr[|es|], p)
  {
    hide Step, Legal;
    var s0 := Start(env, Config(Viewer, true, 0, 1, 0, weights), None, map[], 0, 1, false);
    var e0, e2 := PeerConnected(p, false), SetRole(Role.Seed);
    var e1 := Tick(TickInput(0, 0, [p], [], {}, Chance(_ => 0.0, (_, _) => 1.0)));
    Connects(s0, p);
    var s1 := Step(s0, e0);
    ChokesNeighbour(s1, p);
    var s2 := Step(s1, e1);
    BecomesSeed(s2);
    var s3 := Step(s2, e2);
    tr, es := [s0, s1, s2, s3], [e0, e1, e2];
  }

  lemma Connects(s: Node, p: Peer)
    requires Alone(s)
    ensures Legal(s, PeerConnected(p, false))
    ensures Step(s, PeerConnected(p, false)) == Note(s, Joined(p)).(peers := map[p := NEWCOMER], links := {p})
  {}

  lemma BecomesSeed(s: Node)
    ensures Legal(s, SetRole(Role.Seed)) && Step(s, SetRole(Role.Seed)) == s.(cfg := s.cfg.(role := Role.Seed))
  {}

  /** A viewer with one unserved neighbour, about to review its upload slots for the first time. */
  ghost predicate AboutToReview(s: Node, p: Peer) {
    && s.peers.Keys == {p} && s.cfg.role == Viewer && s.meter.chokeMs == 0 && s.flight == Flight(map[], map[])
  }

  lemma OpeningKeepsReview(s: Node, p: Peer, playHead: Seq)
    requires AboutToReview(s, p)
    ensures AboutToReview(TickRefill(TickPrune(TickCursor(s, playHead))), p)
  {
    hide Store.PruneBelow, BufMap.PruneBelow, BufMap.Highest;
  }

  lemma ServeKeepsReview(s: Node, p: Peer)
    requires AboutToReview(s, p)
    ensures AboutToReview(TickServe(s, [p]), p)
  {
    hide ServeQueue;
    assert [p][..0] == [] && TickServe(s, []) == s;
  }

  lemma ReviewChokesAll(s: Node, p: Peer, t: TickInput)
    requires AboutToReview(s, p) && t.askOrder == [] && t.unchoked == {}
    ensures MeshChoke.Choked(TickUpkeep(s, t), p)
  {
    hide Total, Restrict, OldSlots, Behind;
    assert TickExpire(s, []) == s;
  }

  lemma ChokesNeighbour(s: Node, p: Peer)
    requires s.peers == map[p := NEWCOMER] && AboutToReview(s, p)
    ensures var e := Tick(TickInput(0, 0, [p], [], {}, Chance(_ => 0.0, (_, _) => 1.0)));
            Legal(s, e) && MeshChoke.Choked(Step(s, e), p)
  {
    hide Input.Plan, PickInput, IssueAll, TickRefill, TickPrune, TickCursor, TickServe, TickUpkeep, MeshChoke.Choked;
    var t := TickInput(0, 0, [p], [], {}, Chance(_ => 0.0, (_, _) => 1.0));
    assert s.(now := s.now + 0) == s;
    OpeningKeepsReview(s, p, 0);
    var r := TickRefill(TickPrune(TickCursor(s, 0)));
    ServeKeepsReview(r, p);
    ReviewChokesAll(TickServe(r, [p]), p, t);
    var u := TickUpkeep(TickServe(r, [p]), t);
    MeshChoke.IssueFlag(p, u, PickInput(u, [p]).Plan(u.win.local, t.chance));
  }

  // ---- a budget of zero ----

  /** With a budget of zero there is no bound: for every number of bytes some run sends more in no time at
      all, to one subscriber, although the burst and what the budget earns are fixed. */
  lemma ZeroBudgetHasNoBound(env: Env, cfg: Config, id: Digest, p: Peer, bytes: nat)
    returns (tr: seq<Node>, es: seq<Event>)
    requires cfg.budget == 0
    ensures IsRun(tr, es) && tr[0].cfg == cfg && tr[0].env == env && tr[|es|].now == tr[0].now
    ensures tr[|es|].hist.sent - tr[0].hist.sent > bytes
  {
    hide Step, Legal;
    var b: Bytes := seq(bytes + 1, _ => 0);
    var s0 := Start(env, cfg, None, map[], 0, 1, false);
    var e0, e1, e2 := PeerConnected(p, false), Inbound(p, Subscribe, []), Produced(0, id, b, [p]);
    Greeted(s0, p);
    var s1 := Step(s0, e0);
    var s2 := Step(s1, e1);
    ProducedGoesOut(s2, p, id, b);
    var s3 := Step(s2, e2);
    tr, es := [s0, s1, s2, s3], [e0, e1, e2];
  }

  /** One subscriber, linked and lacking everything. */
  ghost predicate OneSubscriber(s: Node, p: Peer) {
    && s.subscribers == {p} && s.links == {p} && s.peers == map[p := NEWCOMER]
    && s.cfg.budget == 0 && s.win.store == Empty(1, false)
  }

  lemma Greeted(s: Node, p: Peer)
    requires Alone(s) && s.cfg.budget == 0 && s.win.store == Empty(1, false)
    ensures Legal(s, PeerConnected(p, false))
    ensures Legal(Step(s, PeerConnected(p, false)), Inbound(p, Subscribe, []))
    ensures OneSubscriber(Step(Step(s, PeerConnected(p, false)), Inbound(p, Subscribe, [])), p)
    ensures Step(Step(s, PeerConnected(p, false)), Inbound(p, Subscribe, [])).now == s.now
    ensures Step(Step(s, PeerConnected(p, false)), Inbound(p, Subscribe, [])).hist.sent == s.hist.sent
  {
    var t := Step(s, PeerConnected(p, false));
    assert t == Note(s, Joined(p)).(peers := map[p := NEWCOMER], links := {p});
    hide OnConnected;
    assert Step(t, Inbound(p, Subscribe, [])) == t.(subscribers := {p});
  }

  lemma PushOne(s: Node, p: Peer, q: Seq, b: Bytes)
    requires s.subscribers == {p} && s.links == {p} && s.peers == map[p := NEWCOMER] && s.cfg.budget == 0
    requires s.win.store.Get(q) == Some(b)
    ensures PushToSubscribers(s, q, [p]) == s.(hist := s.hist.(sent := s.hist.sent + |b|))
  {
    hide Store.Get;
    assert [p][1..] == [] && Targets(s, q, []) == [];
    assert Targets(s, q, [p]) == [p];
    var (tokens, sent) := PushLedger(s.links, false, |b|, [], s.meter.tokens, s.hist.sent + |b|);
    assert (tokens, sent) == (s.meter.tokens, s.hist.sent + |b|);
  }

  lemma ProducedGoesOut(s: Node, p: Peer, id: Digest, b: Bytes)
    requires OneSubscriber(s, p)
    ensures Legal(s, Produced(0, id, b, [p]))
    ensures Step(s, Produced(0, id, b, [p])).now == s.now
    ensures Step(s, Produced(0, id, b, [p])).hist.sent == s.hist.sent + |b|
  {
    hide PushToSubscribers, BufMap.Set;
    var st := s.win.store.(index := map[0 := id], mem := map[0 := b]);
    assert |st.mem| == 1;
    assert s.win.store.Insert(0, id, b) == st && st.Get(0) == Some(b);
    var k := Record(Keep(s, 0, id, b), 0, id);
    PushOne(if s.env.signs then See(k, 0) else k, p, 0, b);
  }
}
