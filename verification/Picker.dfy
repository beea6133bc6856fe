/** The deadline-aware piece picker (crates/unstation-core/src/picker.rs). Reals stand for
    `f64`; the random draw for each segment and `powf` are arbitrary functions. */
module Picker {
  import opened Common
  import opened BufferMaps

  datatype Zone = Panic | Mid | Prefetch
  datatype Source = FromPeer(peer: Peer) | Seed | Bulletin
  datatype Request = Request(seq_: Seq, source: Source, redundant: bool)

  datatype PeerView = PeerView(id: Peer, buffer: BufMap, throughput: real, rtt: real,
                               pendingBytes: nat, reputation: real)

  datatype Weights = Weights(wD: real, wR: real, beta: real, panicHorizon: nat, fallbackSlack: nat)

  /** One tick's random draws and the power function. */
  datatype Chance = Chance(draw: Seq -> real, pow: (real, real) -> real)

  /** `f64::MIN_POSITIVE`, 2^-1022. */
  const MIN_POSITIVE: real := 1.0 / (TWO_POW_1022 as real)
  const TWO_POW_1022: nat :=
    0x4000000000000000_0000000000000000_0000000000000000_0000000000000000_0000000000000000_0000000000000000_0000000000000000_0000000000000000_0000000000000000_0000000000000000_0000000000000000_0000000000000000_0000000000000000_0000000000000000_0000000000000000_0000000000000000

  datatype Input = Input(play: Seq, head: Seq, window: nat, segBytes: nat, segMs: nat,
                         peers: seq<PeerView>, weights: Weights, seedAvailable: bool, bulletinAvailable: bool)
  {
    /** `deadline - now`: the current time cancels out. */
    function TimeToDeadline(q: Seq): nat { SatSub(q, play) * segMs }

    function ZoneOf(q: Seq): Zone {
      if TimeToDeadline(q) <= weights.panicHorizon then Panic
      else if q > play + window * 2 / 3 then Prefetch
      else Mid
    }

    function Availability(q: Seq): nat { |Holders(peers, q)| }

    function ExpectedTime(p: PeerView): real {
      ((p.pendingBytes + segBytes) as real * 8.0 / MaxReal(p.throughput, 1.0) * 1000.0 + p.rtt)
      / MaxReal(0.1, MinReal(p.reputation, 1.0))
    }

    function ByTime(q: Seq): seq<PeerView> { Sort(Holders(peers, q)) }

    /** Stable insertion sort on expected time. */
    function Sort(vs: seq<PeerView>): (r: seq<PeerView>)
      ensures |r| == |vs|
    {
      if vs == [] then [] else Place(Sort(vs[..|vs| - 1]), vs[|vs| - 1])
    }

    function Place(sorted: seq<PeerView>, v: PeerView): (r: seq<PeerView>)
      ensures |r| == |sorted| + 1
    {
      if sorted == [] || ExpectedTime(v) < ExpectedTime(sorted[0]) then [v] + sorted
      else [sorted[0]] + Place(sorted[1..], v)
    }

    function Utility(q: Seq): real {
      weights.wD * (1.0 / Max(TimeToDeadline(q), 1) as real)
      + weights.wR * (1.0 / Max(Availability(q), 1) as real)
    }

    predicate Missing(local: BufMap, q: Seq) { play <= q < play + window && q <= head && !local.Has(q) }

    /** Best utility among the missing mid-zone segments below `upTo`. */
    function BestUtility(local: BufMap, upTo: Seq): (u: real)
      ensures u >= MIN_POSITIVE
      decreases upTo
    {
      if upTo <= play then MIN_POSITIVE else
        var u := BestUtility(local, upTo - 1);
        if Missing(local, upTo - 1) && ZoneOf(upTo - 1) == Mid then MaxReal(u, Utility(upTo - 1)) else u
    }

    function Fallback(q: Seq): seq<Request> {
      if seedAvailable then [Request(q, Seed, false)]
      else if bulletinAvailable then [Request(q, Bulletin, false)]
      else []
    }

    function PanicRequests(q: Seq): seq<Request> {
      var hs := ByTime(q);
      if hs == [] || ExpectedTime(hs[0]) > (TimeToDeadline(q) + weights.fallbackSlack) as real then
        Fallback(q) + (if hs == [] then [] else [Request(q, FromPeer(hs[0].id), true)])
      else
        [Request(q, FromPeer(hs[0].id), false)]
        + (if |hs| > 1 then [Request(q, FromPeer(hs[1].id), true)] else [])
    }

    function MidRequests(q: Seq, best: real, c: Chance): seq<Request>
      requires best >= MIN_POSITIVE
    {
      var hs := ByTime(q);
      if hs == [] then [] else
        MinPositive();
        var p := MinReal(c.pow(Utility(q) / best, weights.beta), 1.0);
        if c.draw(q) <= p then [Request(q, FromPeer(hs[0].id), false)] else []
    }

    function PrefetchRequests(q: Seq): seq<Request> {
      var hs := ByTime(q);
      if Availability(q) <= 2 && hs != [] then [Request(q, FromPeer(hs[0].id), false)] else []
    }

    function RequestsFor(local: BufMap, q: Seq, best: real, c: Chance): seq<Request>
      requires best >= MIN_POSITIVE
    {
      if !Missing(local, q) then []
      else match ZoneOf(q)
        case Panic => PanicRequests(q)
        case Mid => MidRequests(q, best, c)
        case Prefetch => PrefetchRequests(q)
    }

    function PlanUpTo(local: BufMap, upTo: Seq, best: real, c: Chance): seq<Request>
      requires best >= MIN_POSITIVE
      decreases upTo
    {
      if upTo <= play then []
      else PlanUpTo(local, upTo - 1, best, c) + RequestsFor(local, upTo - 1, best, c)
    }

    /** The whole tick. */
    function Plan(local: BufMap, c: Chance): seq<Request> {
      PlanUpTo(local, play + window, BestUtility(local, play + window), c)
    }
  }

  lemma MinPositive()
    ensures MIN_POSITIVE > 0.0
  {}

  function Holders(peers: seq<PeerView>, q: Seq): (r: seq<PeerView>)
    ensures forall v :: v in r <==> v in peers && v.buffer.Has(q)
  {
    if peers == [] then [] else
      var rest := Holders(peers[..|peers| - 1], q);
      var last := peers[|peers| - 1];
      if last.buffer.Has(q) then rest + [last] else rest
  }

  lemma SelfRatio(u: real)
    requires u > 0.0
    ensures u / u == 1.0
  {}

  // ---- sorting by expected time ----

  lemma {:induction false} PlaceKeeps(inp: Input, sorted: seq<PeerView>, v: PeerView)
    requires forall i, j :: 0 <= i < j < |sorted| ==> inp.ExpectedTime(sorted[i]) <= inp.ExpectedTime(sorted[j])
    ensures forall x :: x in inp.Place(sorted, v) <==> x in sorted || x == v
    ensures forall i, j :: 0 <= i < j < |inp.Place(sorted, v)| ==>
              inp.ExpectedTime(inp.Place(sorted, v)[i]) <= inp.ExpectedTime(inp.Place(sorted, v)[j])
    decreases |sorted|
  {
    if sorted != [] && inp.ExpectedTime(v) >= inp.ExpectedTime(sorted[0]) {
      PlaceKeeps(inp, sorted[1..], v);
      var r := inp.Place(sorted[1..], v);
      forall x | x in r ensures inp.ExpectedTime(sorted[0]) <= inp.ExpectedTime(x) {
        if x != v { var k :| 1 <= k < |sorted| && sorted[k] == x; }
      }
    }
  }

  /** The sorted holders are the holders, fastest first. */
  lemma {:induction false} SortKeeps(inp: Input, vs: seq<PeerView>)
    ensures forall x :: x in inp.Sort(vs) <==> x in vs
    ensures forall i, j :: 0 <= i < j < |inp.Sort(vs)| ==>
              inp.ExpectedTime(inp.Sort(vs)[i]) <= inp.ExpectedTime(inp.Sort(vs)[j])
    decreases |vs|
  {
    if vs != [] {
      SortKeeps(inp, vs[..|vs| - 1]);
      PlaceKeeps(inp, inp.Sort(vs[..|vs| - 1]), vs[|vs| - 1]);
      assert forall x :: x in vs <==> x in vs[..|vs| - 1] || x == vs[|vs| - 1];
    }
  }

  /** `v` holds `q` and no holder is expected to be faster. */
  ghost predicate Fastest(inp: Input, q: Seq, v: PeerView) {
    v in inp.peers && v.buffer.Has(q)
    && forall w :: w in inp.peers && w.buffer.Has(q) ==> inp.ExpectedTime(v) <= inp.ExpectedTime(w)
  }

  lemma FirstIsFastest(inp: Input, q: Seq)
    requires inp.ByTime(q) != []
    ensures Fastest(inp, q, inp.ByTime(q)[0])
    ensures forall i :: 0 <= i < |inp.ByTime(q)| ==> inp.ByTime(q)[i] in inp.peers && inp.ByTime(q)[i].buffer.Has(q)
  {
    var hs := inp.ByTime(q);
    SortKeeps(inp, Holders(inp.peers, q));
    forall w | w in inp.peers && w.buffer.Has(q) ensures inp.ExpectedTime(hs[0]) <= inp.ExpectedTime(w) {
      assert w in hs;
      var k :| 0 <= k < |hs| && hs[k] == w;
    }
    assert hs[0] in hs;
  }

  lemma HolderMeansSorted(inp: Input, q: Seq, v: PeerView)
    requires v in inp.peers && v.buffer.Has(q)
    ensures inp.ByTime(q) != []
  {
    SortKeeps(inp, Holders(inp.peers, q));
    assert v in inp.ByTime(q);
  }

  // ---- zones ----

  function Rank(z: Zone): nat { match z case Panic => 0 case Mid => 1 case Prefetch => 2 }

  /** Along the window the zones are three consecutive intervals: panic, then mid, then prefetch. */
  lemma ZonesAreIntervals(inp: Input, q: Seq, q': Seq)
    requires inp.play <= q <= q'
    ensures Rank(inp.ZoneOf(q)) <= Rank(inp.ZoneOf(q'))
  {
    ScaleMonotone(q - inp.play, q' - inp.play, inp.segMs);
  }

  /** A segment is in the panic zone exactly when it is due within the horizon; of the others, those more than two
      thirds of the window ahead are prefetched. */
  lemma ZonesExactly(inp: Input, q: Seq)
    requires inp.play <= q
    ensures inp.ZoneOf(q) == Panic <==> (q - inp.play) * inp.segMs <= inp.weights.panicHorizon
    ensures inp.ZoneOf(q) == Prefetch <==>
            (q - inp.play) * inp.segMs > inp.weights.panicHorizon && 3 * (q - inp.play) > 2 * inp.window
  {
    var third := inp.window * 2 / 3;
    assert 3 * third <= 2 * inp.window < 3 * third + 3;
  }

  lemma ScaleMonotone(a: nat, b: nat, k: nat)
    requires a <= b
    ensures a * k <= b * k
  {}

  // ---- what a plan may ask for ----

  ghost predicate RequestOk(inp: Input, local: BufMap, r: Request) {
    && inp.Missing(local, r.seq_)
    && (r.source.FromPeer? ==>
          exists v :: v in inp.peers && v.id == r.source.peer && v.buffer.Has(r.seq_))
    && (r.source.Seed? ==> inp.seedAvailable)
    && (r.source.Bulletin? ==> inp.bulletinAvailable)
  }

  lemma RequestsForOk(inp: Input, local: BufMap, q: Seq, best: real, c: Chance)
    requires best >= MIN_POSITIVE
    ensures forall r :: r in inp.RequestsFor(local, q, best, c) ==> r.seq_ == q && RequestOk(inp, local, r)
    ensures |inp.RequestsFor(local, q, best, c)| <= 2
    ensures |inp.RequestsFor(local, q, best, c)| == 2 ==> inp.RequestsFor(local, q, best, c)[1].redundant
  {
    hide Input.ExpectedTime, Input.Utility, Input.ByTime, Fastest;
    if inp.ByTime(q) != [] { FirstIsFastest(inp, q); }
    forall r | r in inp.RequestsFor(local, q, best, c) ensures r.seq_ == q && RequestOk(inp, local, r) {
      if r.source.FromPeer? {
        var hs := inp.ByTime(q);
        var i := if r.source.peer == hs[0].id then 0 else 1;
        assert hs[i] in inp.peers && hs[i].id == r.source.peer && hs[i].buffer.Has(q);
      }
    }
  }

  lemma {:induction false} PlanUpToOk(inp: Input, local: BufMap, upTo: Seq, best: real, c: Chance)
    requires best >= MIN_POSITIVE
    ensures forall r :: r in inp.PlanUpTo(local, upTo, best, c) ==> r.seq_ < upTo && RequestOk(inp, local, r)
    decreases upTo
  {
    hide Input.RequestsFor, RequestOk;
    if upTo > inp.play {
      PlanUpToOk(inp, local, upTo - 1, best, c);
      RequestsForOk(inp, local, upTo - 1, best, c);
    }
  }

  /** Only produced, unheld, in-window segments are asked for, and only from peers that hold them. */
  lemma PlanAsksOnlyWhatItMay(inp: Input, local: BufMap, c: Chance)
    ensures forall r :: r in inp.Plan(local, c) ==> RequestOk(inp, local, r)
  {
    hide Input.RequestsFor, RequestOk;
    PlanUpToOk(inp, local, inp.play + inp.window, inp.BestUtility(local, inp.play + inp.window), c);
  }

  function Asking(rs: seq<Request>, q: Seq): seq<Request> {
    if rs == [] then [] else
      Asking(rs[..|rs| - 1], q) + (if rs[|rs| - 1].seq_ == q then [rs[|rs| - 1]] else [])
  }

  lemma {:induction false} AskingSplits(xs: seq<Request>, ys: seq<Request>, q: Seq)
    ensures Asking(xs + ys, q) == Asking(xs, q) + Asking(ys, q)
    decreases |ys|
  {
    if ys == [] {
      assert xs + ys == xs;
    } else {
      assert (xs + ys)[..|xs + ys| - 1] == xs + ys[..|ys| - 1];
      AskingSplits(xs, ys[..|ys| - 1], q);
    }
  }

  lemma {:induction false} AskingNone(rs: seq<Request>, q: Seq)
    requires forall r :: r in rs ==> r.seq_ != q
    ensures Asking(rs, q) == []
    decreases |rs|
  {
    if rs != [] { AskingNone(rs[..|rs| - 1], q); }
  }

  /** A block of requests that all concern one segment. */
  lemma {:induction false} AskingBlock(rs: seq<Request>, at: Seq, q: Seq)
    requires forall r :: r in rs ==> r.seq_ == at
    ensures Asking(rs, q) == if at == q then rs else []
    decreases |rs|
  {
    if rs != [] {
      AskingBlock(rs[..|rs| - 1], at, q);
      assert rs == rs[..|rs| - 1] + [rs[|rs| - 1]];
    }
  }

  lemma {:induction false} PlanUpToPerSegment(inp: Input, local: BufMap, upTo: Seq, q: Seq, best: real, c: Chance)
    requires best >= MIN_POSITIVE && inp.play <= q < upTo
    ensures Asking(inp.PlanUpTo(local, upTo, best, c), q) == inp.RequestsFor(local, q, best, c)
    decreases upTo
  {
    hide Input.RequestsFor, RequestOk, Input.Missing, Asking;
    var before, mine := inp.PlanUpTo(local, upTo - 1, best, c), inp.RequestsFor(local, upTo - 1, best, c);
    AskingSplits(before, mine, q);
    RequestsForOk(inp, local, upTo - 1, best, c);
    AskingBlock(mine, upTo - 1, q);
    if q < upTo - 1 {
      PlanUpToPerSegment(inp, local, upTo - 1, q, best, c);
    } else {
      PlanUpToOk(inp, local, upTo - 1, best, c);
      AskingNone(before, q);
    }
  }

  /** At most two requests per segment, and only the first may be non-redundant. */
  lemma PlanPerSegment(inp: Input, local: BufMap, c: Chance, q: Seq)
    ensures |Asking(inp.Plan(local, c), q)| <= 2
    ensures |Asking(inp.Plan(local, c), q)| == 2 ==> Asking(inp.Plan(local, c), q)[1].redundant
  {
    hide Input.RequestsFor, Input.BestUtility;
    var end, best := inp.play + inp.window, inp.BestUtility(local, inp.play + inp.window);
    if inp.play <= q < end {
      PlanUpToPerSegment(inp, local, end, q, best, c);
      RequestsForOk(inp, local, q, best, c);
    } else {
      PlanUpToOk(inp, local, end, best, c);
      AskingNone(inp.Plan(local, c), q);
    }
  }

  lemma {:induction false} AskingIn(rs: seq<Request>, q: Seq)
    ensures forall r :: r in Asking(rs, q) ==> r in rs
    decreases |rs|
  {
    if rs != [] { AskingIn(rs[..|rs| - 1], q); }
  }

  /** The tick's normaliser: the best utility over the whole window. */
  function Best(inp: Input, local: BufMap): (u: real)
    ensures u >= MIN_POSITIVE
  {
    inp.BestUtility(local, inp.play + inp.window)
  }

  /** What a segment's own decision asks for ends up in the plan. */
  lemma PlanIncludes(inp: Input, local: BufMap, c: Chance, q: Seq, r: Request)
    requires inp.play <= q < inp.play + inp.window && r in inp.RequestsFor(local, q, Best(inp, local), c)
    ensures r in inp.Plan(local, c)
  {
    hide Input.RequestsFor, Input.BestUtility;
    PlanUpToPerSegment(inp, local, inp.play + inp.window, q, Best(inp, local), c);
    AskingIn(inp.Plan(local, c), q);
  }

  /** `r` asks for `q` from a fastest holder of it. */
  ghost predicate AsksFastest(inp: Input, q: Seq, r: Request) {
    r.seq_ == q && exists w :: Fastest(inp, q, w) && r.source == FromPeer(w.id)
  }

  /** Every missing panic-zone segment somebody holds is requested from a fastest holder. */
  lemma PanicIsServed(inp: Input, local: BufMap, c: Chance, q: Seq, v: PeerView)
    requires inp.Missing(local, q) && inp.ZoneOf(q) == Panic
    requires v in inp.peers && v.buffer.Has(q)
    ensures exists r :: r in inp.Plan(local, c) && AsksFastest(inp, q, r)
  {
    hide Fastest, Input.ExpectedTime, Input.Plan;
    HolderMeansSorted(inp, q, v);
    FirstIsFastest(inp, q);
    var w := inp.ByTime(q)[0];
    var rs := inp.PanicRequests(q);
    var r := if rs[0].source == FromPeer(w.id) then rs[0] else rs[|rs| - 1];
    assert r in rs && AsksFastest(inp, q, r);
    PlanIncludes(inp, local, c, q, r);
  }

  lemma {:induction false} BestIsBest(inp: Input, local: BufMap, upTo: Seq, q: Seq)
    requires inp.Missing(local, q) && inp.ZoneOf(q) == Mid && q < upTo
    requires inp.Utility(q) >= MIN_POSITIVE
    requires forall q' :: inp.Missing(local, q') && inp.ZoneOf(q') == Mid ==> inp.Utility(q') <= inp.Utility(q)
    ensures inp.BestUtility(local, upTo) == inp.Utility(q)
    decreases upTo
  {
    if q < upTo - 1 { BestIsBest(inp, local, upTo - 1, q); } else { BestAtMost(inp, local, upTo - 1, inp.Utility(q)); }
  }

  lemma {:induction false} BestAtMost(inp: Input, local: BufMap, upTo: Seq, u: real)
    requires u >= MIN_POSITIVE
    requires forall q' :: inp.Missing(local, q') && inp.ZoneOf(q') == Mid ==> inp.Utility(q') <= u
    ensures inp.BestUtility(local, upTo) <= u
    decreases upTo
  {
    if upTo > inp.play { BestAtMost(inp, local, upTo - 1, u); }
  }

  /** A mid-zone segment of maximal utility that somebody holds is requested whatever the draw. */
  lemma StrongestMidIsServed(inp: Input, local: BufMap, c: Chance, q: Seq, v: PeerView)
    requires inp.Missing(local, q) && inp.ZoneOf(q) == Mid
    requires v in inp.peers && v.buffer.Has(q)
    requires inp.Utility(q) >= MIN_POSITIVE
    requires forall q' :: inp.Missing(local, q') && inp.ZoneOf(q') == Mid ==> inp.Utility(q') <= inp.Utility(q)
    requires c.pow(1.0, inp.weights.beta) == 1.0 && 0.0 <= c.draw(q) < 1.0
    ensures exists r :: r in inp.Plan(local, c) && AsksFastest(inp, q, r) && !r.redundant
  {
    hide Fastest, Input.ExpectedTime, Input.Plan, Input.Utility, Input.BestUtility, Input.TimeToDeadline, Input.ByTime;
    BestIsBest(inp, local, inp.play + inp.window, q);
    HolderMeansSorted(inp, q, v);
    FirstIsFastest(inp, q);
    MinPositive();
    SelfRatio(inp.Utility(q));
    var r := Request(q, FromPeer(inp.ByTime(q)[0].id), false);
    assert r in inp.MidRequests(q, Best(inp, local), c) && AsksFastest(inp, q, r);
    PlanIncludes(inp, local, c, q, r);
  }

  lemma {:induction false} AskingAll(rs: seq<Request>, q: Seq)
    ensures forall r :: r in rs && r.seq_ == q ==> r in Asking(rs, q)
    decreases |rs|
  {
    if rs != [] {
      AskingAll(rs[..|rs| - 1], q);
      assert rs == rs[..|rs| - 1] + [rs[|rs| - 1]];
    }
  }

  /** What the plan asks for a segment is what its own decision asks. */
  lemma PlannedExactly(inp: Input, local: BufMap, c: Chance, q: Seq)
    requires inp.play <= q < inp.play + inp.window
    ensures forall r :: r in inp.Plan(local, c) && r.seq_ == q <==> r in inp.RequestsFor(local, q, Best(inp, local), c)
  {
    hide Input.RequestsFor, Input.BestUtility, RequestOk;
    PlanUpToPerSegment(inp, local, inp.play + inp.window, q, Best(inp, local), c);
    RequestsForOk(inp, local, q, Best(inp, local), c);
    AskingIn(inp.Plan(local, c), q);
    AskingAll(inp.Plan(local, c), q);
  }

  /** A missing mid-zone segment somebody holds is requested exactly when its draw is within its share of the
      best utility, raised to beta; and the best is never less than the smallest positive number, so with
      smaller utilities (both weights zero, say) even the strongest is left to its draw. */
  lemma MidIsServedExactly(inp: Input, local: BufMap, c: Chance, q: Seq, v: PeerView)
    requires inp.Missing(local, q) && inp.ZoneOf(q) == Mid && v in inp.peers && v.buffer.Has(q)
    ensures (exists r :: r in inp.Plan(local, c) && r.seq_ == q) <==>
            (MinPositive(); c.draw(q) <= MinReal(c.pow(inp.Utility(q) / Best(inp, local), inp.weights.beta), 1.0))
    ensures forall r :: r in inp.Plan(local, c) && r.seq_ == q ==> AsksFastest(inp, q, r) && !r.redundant
    ensures inp.Utility(q) <= Best(inp, local)
    ensures (forall x :: inp.Missing(local, x) && inp.ZoneOf(x) == Mid ==> inp.Utility(x) <= MIN_POSITIVE) ==>
              Best(inp, local) == MIN_POSITIVE
  {
    hide Input.Utility, Input.BestUtility, Input.Plan, Input.MidRequests, Best, AsksFastest;
    PlannedExactly(inp, local, c, q);
    MidDecision(inp, c, q, v, Best(inp, local));
    MidNormaliser(inp, local, q);
    var rs := inp.MidRequests(q, Best(inp, local), c);
    assert rs == [] || rs[0] in rs;
  }

  lemma MidDecision(inp: Input, c: Chance, q: Seq, v: PeerView, best: real)
    requires best >= MIN_POSITIVE && v in inp.peers && v.buffer.Has(q)
    ensures inp.MidRequests(q, best, c) != [] <==>
            (MinPositive(); c.draw(q) <= MinReal(c.pow(inp.Utility(q) / best, inp.weights.beta), 1.0))
    ensures forall r :: r in inp.MidRequests(q, best, c) ==> r.seq_ == q && AsksFastest(inp, q, r) && !r.redundant
  {
    hide Fastest, Input.ExpectedTime, Input.Utility, Input.ByTime;
    HolderMeansSorted(inp, q, v);
    FirstIsFastest(inp, q);
  }

  lemma MidNormaliser(inp: Input, local: BufMap, q: Seq)
    requires inp.Missing(local, q) && inp.ZoneOf(q) == Mid
    ensures inp.Utility(q) <= Best(inp, local)
    ensures (forall x :: inp.Missing(local, x) && inp.ZoneOf(x) == Mid ==> inp.Utility(x) <= MIN_POSITIVE) ==>
              Best(inp, local) == MIN_POSITIVE
  {
    hide Input.Utility, Input.BestUtility;
    BestAtLeast(inp, local, inp.play + inp.window, q);
    if forall x :: inp.Missing(local, x) && inp.ZoneOf(x) == Mid ==> inp.Utility(x) <= MIN_POSITIVE {
      BestAtMost(inp, local, inp.play + inp.window, MIN_POSITIVE);
    }
  }

  /** Some holder can deliver in time, counting the slack. */
  ghost predicate InTime(inp: Input, q: Seq) {
    exists v :: v in inp.peers && v.buffer.Has(q)
                && inp.ExpectedTime(v) <= (inp.TimeToDeadline(q) + inp.weights.fallbackSlack) as real
  }

  /** In the panic zone a missing segment has a peer for its main request exactly when some holder can deliver
      in time; otherwise the seed is asked, or else the floor, where there is one; and as long as there is a
      holder, or two when one is in time, a peer is asked besides. */
  lemma PanicIsServedExactly(inp: Input, local: BufMap, c: Chance, q: Seq)
    requires inp.Missing(local, q) && inp.ZoneOf(q) == Panic
    ensures (exists r :: r in inp.Plan(local, c) && r.seq_ == q && r.source.FromPeer? && !r.redundant) <==>
              InTime(inp, q)
    ensures Request(q, Seed, false) in inp.Plan(local, c) <==> !InTime(inp, q) && inp.seedAvailable
    ensures Request(q, Bulletin, false) in inp.Plan(local, c) <==>
            !InTime(inp, q) && !inp.seedAvailable && inp.bulletinAvailable
    ensures (exists r :: r in inp.Plan(local, c) && r.seq_ == q && r.source.FromPeer? && r.redundant) <==>
            inp.Availability(q) > (if InTime(inp, q) then 1 else 0)
  {
    hide Input.Plan, Input.ByTime, Best, Input.TimeToDeadline, Input.ExpectedTime, Input.Utility;
    PlannedExactly(inp, local, c, q);
    TimelyFirst(inp, q);
    var rs := inp.PanicRequests(q);
    assert forall r :: r in rs ==> r == rs[0] || (|rs| > 1 && r == rs[1]);
    assert rs == [] || rs[0] in rs;
    assert |rs| < 2 || rs[1] in rs;
  }

  lemma TimelyFirst(inp: Input, q: Seq)
    ensures InTime(inp, q) <==>
            inp.ByTime(q) != [] && inp.ExpectedTime(inp.ByTime(q)[0])
                <= (inp.TimeToDeadline(q) + inp.weights.fallbackSlack) as real
    ensures |inp.ByTime(q)| == inp.Availability(q)
  {
    hide Input.ExpectedTime, Input.TimeToDeadline;
    if inp.ByTime(q) != [] { FirstIsFastest(inp, q); }
    SortKeeps(inp, Holders(inp.peers, q));
  }

  /** A missing prefetch-zone segment is requested exactly while it is rare: held by one peer or two. */
  lemma PrefetchIsServedExactly(inp: Input, local: BufMap, c: Chance, q: Seq)
    requires inp.Missing(local, q) && inp.ZoneOf(q) == Prefetch
    ensures (exists r :: r in inp.Plan(local, c) && r.seq_ == q) <==> 1 <= inp.Availability(q) <= 2
    ensures forall r :: r in inp.Plan(local, c) && r.seq_ == q ==> AsksFastest(inp, q, r) && !r.redundant
  {
    hide Input.Plan, Input.ByTime, Best, Fastest, Input.ExpectedTime, Input.Utility, Input.TimeToDeadline;
    PlannedExactly(inp, local, c, q);
    TimelyFirst(inp, q);
    if inp.ByTime(q) != [] { FirstIsFastest(inp, q); }
    var rs := inp.PrefetchRequests(q);
    assert rs == [] || rs[0] in rs;
  }

  /** Utility weighs urgency and rarity: times deadline times holders it is one weight times the holders plus
      the other times the deadline (both counted as at least one). */
  lemma UtilityMeans(inp: Input, q: Seq)
    ensures var d, a := Max(inp.TimeToDeadline(q), 1) as real, Max(inp.Availability(q), 1) as real;
            inp.Utility(q) * d * a == inp.weights.wD * a + inp.weights.wR * d
    ensures inp.play <= q ==> inp.TimeToDeadline(q) == (q - inp.play) * inp.segMs
  {
    hide Input.TimeToDeadline, Input.Availability;
    var d, a := Max(inp.TimeToDeadline(q), 1) as real, Max(inp.Availability(q), 1) as real;
    Undo(1.0, d);
    Undo(1.0, a);
    Weighed(inp.weights.wD, inp.weights.wR, 1.0 / d, 1.0 / a, d, a);
    DeadlineIs(inp, q);
  }

  lemma DeadlineIs(inp: Input, q: Seq)
    ensures inp.play <= q ==> inp.TimeToDeadline(q) == (q - inp.play) * inp.segMs
  {}

  lemma Weighed(u: real, w: real, x: real, y: real, d: real, a: real)
    requires x * d == 1.0 && y * a == 1.0
    ensures (u * x + w * y) * d * a == u * a + w * d
  {
    assert (u * x + w * y) * d * a == u * (x * d) * a + w * (y * a) * d;
  }

  lemma {:induction false} BestAtLeast(inp: Input, local: BufMap, upTo: Seq, q: Seq)
    requires inp.Missing(local, q) && inp.ZoneOf(q) == Mid && q < upTo
    ensures inp.Utility(q) <= inp.BestUtility(local, upTo)
    decreases upTo
  {
    hide Input.Utility, Input.ZoneOf;
    if q < upTo - 1 { BestAtLeast(inp, local, upTo - 1, q); }
  }

  // ---- what the expected time measures ----

  function Within(lo: real, x: real, hi: real): real { MaxReal(lo, MinReal(x, hi)) }

  /** At full reputation it is the time to transfer what is pending plus one segment at the peer's rate (bits
      per second, answered in milliseconds), plus the round trip; a reputation r divides it by r, and rates
      below one bit per second and reputations outside [0.1, 1] count as the nearest bound. */
  lemma ExpectedTimeMeans(inp: Input, p: PeerView)
    ensures (inp.ExpectedTime(p) * Within(0.1, p.reputation, 1.0) - p.rtt) * MaxReal(p.throughput, 1.0)
            == 8000.0 * (p.pendingBytes + inp.segBytes) as real
  {
    var bits, rate, trust := (p.pendingBytes + inp.segBytes) as real * 8.0, MaxReal(p.throughput, 1.0),
                             Within(0.1, p.reputation, 1.0);
    var x := bits / rate;
    Undo(bits, rate);
    Undo(x * 1000.0 + p.rtt, trust);
    assert inp.ExpectedTime(p) * trust - p.rtt == x * 1000.0;
    Swap(x, rate);
  }

  lemma Undo(a: real, b: real)
    requires b > 0.0
    ensures a / b * b == a
  {}

  lemma Swap(x: real, y: real)
    ensures x * 1000.0 * y == 1000.0 * (x * y)
  {}

  /** `v` is in no respect a worse source than `w`. */
  predicate NoWorse(v: PeerView, w: PeerView) {
    && v.reputation >= w.reputation && v.throughput >= w.throughput
    && v.pendingBytes <= w.pendingBytes && v.rtt <= w.rtt
  }

  /** And in some respect that counts a better one. */
  predicate Better(inp: Input, v: PeerView, w: PeerView) {
    && NoWorse(v, w)
    && (|| v.rtt < w.rtt || v.pendingBytes < w.pendingBytes
        || (w.pendingBytes + inp.segBytes > 0 && v.throughput > MaxReal(w.throughput, 1.0))
        || ((w.pendingBytes + inp.segBytes > 0 || w.rtt > 0.0)
            && Within(0.1, v.reputation, 1.0) > Within(0.1, w.reputation, 1.0)))
  }

  /** The undivided part: transfer plus round trip. */
  function Base(inp: Input, p: PeerView): real {
    (p.pendingBytes + inp.segBytes) as real * 8.0 / MaxReal(p.throughput, 1.0) * 1000.0 + p.rtt
  }

  lemma QuotientOrders(a: real, b: real, x: real, y: real)
    requires 0.0 <= a <= b && 0.0 < y <= x
    ensures 0.0 <= a / x <= b / y
    ensures a < b ==> a / x < b / y
    ensures y < x && b > 0.0 ==> a / x < b / y
  {
    Undo(a, x);
    Undo(b, y);
    var p, q := a / x, b / y;
    if p > q || (p >= q && (a < b || (y < x && b > 0.0))) {
      ProductOrders(q, p, y, x);
    }
  }

  lemma ProductOrders(q: real, p: real, y: real, x: real)
    requires q <= p && 0.0 < y <= x && p * x >= 0.0
    ensures q * y <= p * x
    ensures q < p ==> q * y < p * x
    ensures y < x && p * x > 0.0 ==> q * y < p * x
  {
    Sign(p, x);
    assert q * y <= p * y && (q < p ==> q * y < p * y);
    Sign(p, x - y);
    assert p * x == p * y + p * (x - y);
  }

  lemma Sign(p: real, x: real)
    requires x >= 0.0
    ensures (p >= 0.0 ==> p * x >= 0.0) && (p == 0.0 ==> p * x == 0.0)
    ensures x > 0.0 ==> (p < 0.0 ==> p * x < 0.0) && (p > 0.0 ==> p * x > 0.0)
  {}

  lemma BaseOrders(inp: Input, v: PeerView, w: PeerView)
    requires NoWorse(v, w) && v.rtt >= 0.0
    ensures 0.0 <= Base(inp, v) <= Base(inp, w)
    ensures v.rtt < w.rtt || v.pendingBytes < w.pendingBytes
            || (w.pendingBytes + inp.segBytes > 0 && v.throughput > MaxReal(w.throughput, 1.0)) ==>
              Base(inp, v) < Base(inp, w)
    ensures w.pendingBytes + inp.segBytes > 0 || w.rtt > 0.0 ==> Base(inp, w) > 0.0
  {
    var a, b := (v.pendingBytes + inp.segBytes) as real * 8.0, (w.pendingBytes + inp.segBytes) as real * 8.0;
    var x, y := MaxReal(v.throughput, 1.0), MaxReal(w.throughput, 1.0);
    QuotientOrders(a, b, x, y);
    QuotientOrders(0.0, b, y, y);
  }

  lemma BetterIsSooner(inp: Input, v: PeerView, w: PeerView)
    requires Better(inp, v, w) && v.rtt >= 0.0
    ensures inp.ExpectedTime(v) < inp.ExpectedTime(w)
  {
    hide Base;
    BaseOrders(inp, v, w);
    QuotientOrders(Base(inp, v), Base(inp, w), Within(0.1, v.reputation, 1.0), Within(0.1, w.reputation, 1.0));
    TimeIsQuotient(inp, v);
    TimeIsQuotient(inp, w);
  }

  lemma TimeIsQuotient(inp: Input, p: PeerView)
    ensures inp.ExpectedTime(p) == Base(inp, p) / Within(0.1, p.reputation, 1.0)
  {}

  /** The first peer a list of requests turns to. */
  function FirstAsked(rs: seq<Request>): Option<Peer> {
    if rs == [] then None else if rs[0].source.FromPeer? then Some(rs[0].source.peer) else FirstAsked(rs[1..])
  }

  lemma FirstAskedIsFastest(inp: Input, local: BufMap, q: Seq, best: real, c: Chance)
    requires best >= MIN_POSITIVE && FirstAsked(inp.RequestsFor(local, q, best, c)).Some?
    ensures inp.ByTime(q) != [] && FirstAsked(inp.RequestsFor(local, q, best, c)) == Some(inp.ByTime(q)[0].id)
  {
    hide Input.ExpectedTime, Input.Utility, Input.ByTime, Fastest;
    var rs := inp.RequestsFor(local, q, best, c);
    assert |rs| >= 2 ==> FirstAsked(rs[1..]) == if rs[1].source.FromPeer? then Some(rs[1].source.peer)
        else FirstAsked(rs[1..][1..]);
  }

  /** Whatever zone it is in, a segment is never first asked of a holder when another holder is better: more
      trusted, faster, less busy or nearer, and in no respect worse. */
  lemma WorseIsNeverFirst(inp: Input, local: BufMap, c: Chance, q: Seq, v: PeerView, w: PeerView)
    requires v in inp.peers && v.buffer.Has(q) && w in inp.peers && Better(inp, v, w) && v.rtt >= 0.0
    requires forall x :: x in inp.peers && x.id == w.id ==> x == w
    ensures FirstAsked(Asking(inp.Plan(local, c), q)) != Some(w.id)
  {
    hide Input.ExpectedTime, Input.RequestsFor, Input.BestUtility, Better, Fastest, Input.ByTime, Asking;
    var end, best := inp.play + inp.window, Best(inp, local);
    if inp.play <= q < end {
      PlanUpToPerSegment(inp, local, end, q, best, c);
      if FirstAsked(inp.RequestsFor(local, q, best, c)).Some? {
        FirstAskedIsFastest(inp, local, q, best, c);
        FirstIsFastest(inp, q);
        BetterIsSooner(inp, v, w);
        assert inp.ByTime(q)[0] != w by { NotFastest(inp, q, v, w); }
      }
    } else {
      PlanUpToOk(inp, local, end, best, c);
      AskingNone(inp.Plan(local, c), q);
    }
  }

  lemma NotFastest(inp: Input, q: Seq, v: PeerView, w: PeerView)
    requires v in inp.peers && v.buffer.Has(q) && inp.ExpectedTime(v) < inp.ExpectedTime(w)
    ensures !Fastest(inp, q, w)
  {}

  /** The two loops of the source compute the plan. */
  method PlanTick(inp: Input, local: BufMap, c: Chance) returns (out: seq<Request>)
    ensures out == inp.Plan(local, c)
    ensures forall r :: r in out ==> RequestOk(inp, local, r)
  {
    hide Input.PanicRequests, Input.MidRequests, Input.PrefetchRequests, Input.Utility, RequestOk, BufMap.Has;
    var end := inp.play + inp.window;
    var best := MIN_POSITIVE;
    for q := inp.play to end
      invariant best == inp.BestUtility(local, q)
    {
      if q > inp.head || local.Has(q) { continue; }
      if inp.ZoneOf(q) == Mid {
        best := MaxReal(best, inp.Utility(q));
      }
    }
    out := [];
    for q := inp.play to end
      invariant out == inp.PlanUpTo(local, q, best, c)
    {
      if q > inp.head || local.Has(q) { continue; }
      match inp.ZoneOf(q)
      case Panic => out := out + inp.PanicRequests(q);
      case Mid => out := out + inp.MidRequests(q, best, c);
      case Prefetch => out := out + inp.PrefetchRequests(q);
    }
    PlanAsksOnlyWhatItMay(inp, local, c);
  }
}
