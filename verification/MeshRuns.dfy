/** The theorems about whole runs of the mesh node: every interleaving of events, from any start. */
module MeshRuns {
  import opened Common
  import opened BufferMaps
  import opened Reassembly
  import opened SegmentStores
  import opened MeshState
  import opened MeshFlight
  import opened MeshBuffers
  import opened MeshDelivery
  import opened MeshWindow
  import opened MeshAuthority
  import opened MeshHonest
  import opened MeshMeter
  import opened MeshConduct
  import opened MeshChoke
  import MeshCap
  import MeshRepeat
  import MeshBans
  import MeshEffects

  lemma RunStep(tr: seq<Node>, es: seq<Event>, i: nat)
    requires IsRun(tr, es) && i < |es|
    ensures Legal(tr[i], es[i]) && tr[i + 1] == Step(tr[i], es[i])
  {
    hide Step, Legal, IsStart;
  }

  // ---- requests ----

  /** In every reachable state each peer is billed exactly for what it was asked, every asked peer is
      connected and hedges ride beside another peer's primary; after a tick nothing in flight is stale. */
  lemma {:induction false} RequestsAreAccounted(tr: seq<Node>, es: seq<Event>, i: nat)
    requires IsRun(tr, es) && i <= |es|
    ensures Tally(tr[i]) && Connected(tr[i])
    ensures i > 0 && es[i - 1].Tick? ==> AllFresh(tr[i])
    decreases i
  {
    hide Step, Legal, Tally, Connected, AllFresh;
    if i == 0 {
      StartOf(tr, es);
      StartDelivery(tr[0]);
    } else {
      RequestsAreAccounted(tr, es, i - 1);
      RunStep(tr, es, i - 1);
      StepFlight(tr[i - 1], es[i - 1]);
    }
  }

  lemma StartOf(tr: seq<Node>, es: seq<Event>)
    requires IsRun(tr, es)
    ensures IsStart(tr[0])
  {
    hide Step, Legal, IsStart;
  }

  // ---- memory ----

  /** Reassembly and parked bytes are counted exactly and stay within their caps; after a tick every
      slot is younger than its deadline. */
  lemma {:induction false} BuffersAreBounded(tr: seq<Node>, es: seq<Event>, i: nat)
    requires IsRun(tr, es) && i <= |es|
    ensures BufferInv(tr[i]) && tr[i].asm.reasmBytes <= MAX_REASM * MAX_SEGMENT_BYTES
    ensures i > 0 && es[i - 1].Tick? ==> AllYoung(tr[i])
    decreases i
  {
    hide Step, Legal, BufferInv, AllYoung;
    if i == 0 {
      StartOf(tr, es);
      StartBuffers(tr[0]);
    } else {
      BuffersAreBounded(tr, es, i - 1);
      RunStep(tr, es, i - 1);
      StepBuffers(tr[i - 1], es[i - 1]);
    }
    ReassemblyBound(tr[i]);
  }

  /** While the open slots announce no more than the announced cap, the counter keeps it, in every run;
      and it stays within the cap throughout a run if and only if no chunk carries it over. */
  lemma {:induction false} CapHoldsExactly(tr: seq<Node>, es: seq<Event>, i: nat)
    requires IsRun(tr, es) && i <= |es|
    ensures MeshCap.Reserved(tr[i]) <= MAX_REASM_BYTES ==> tr[i].asm.reasmBytes <= MAX_REASM_BYTES
    ensures (forall k :: 0 <= k <= i ==> tr[k].asm.reasmBytes <= MAX_REASM_BYTES) <==>
            forall k :: 0 <= k < i ==> !MeshCap.CarriesOver(tr[k], es[k])
    decreases i
  {
    hide Step, Legal, BufferInv, MeshCap.CarriesOver, MeshCap.Reserved;
    BuffersAreBounded(tr, es, i);
    MeshCap.CountedWithinReserved(tr[i]);
    if i == 0 {
      StartOf(tr, es);
    } else {
      CapHoldsExactly(tr, es, i - 1);
      BuffersAreBounded(tr, es, i - 1);
      RunStep(tr, es, i - 1);
      if tr[i - 1].asm.reasmBytes <= MAX_REASM_BYTES { MeshCap.StepCarriesExactly(tr[i - 1], es[i - 1]); }
    }
  }

  /** No parked segment has a known id, floor results or not, exactly as long as no parked segment is
      produced locally. */
  lemma {:induction false} ParkedIsUnknownExactly(tr: seq<Node>, es: seq<Event>, i: nat)
    requires IsRun(tr, es) && i <= |es|
    ensures (forall k :: 0 <= k <= i ==> ParkedUnknown(tr[k])) <==>
            forall k :: 0 <= k < i ==> !ProducesParked(tr[k], es[k])
    decreases i
  {
    hide Step, Legal, ParkedUnknown, ProducesParked;
    if i == 0 {
      StartOf(tr, es);
      StartDelivery(tr[0]);
      InvParks(tr[0]);
    } else {
      ParkedIsUnknownExactly(tr, es, i - 1);
      RunStep(tr, es, i - 1);
      if ParkedUnknown(tr[i - 1]) { StepParkedExactly(tr[i - 1], es[i - 1]); }
    }
  }

  lemma InvParks(s: Node)
    requires DeliveryInv(s)
    ensures ParkedUnknown(s)
  {}

  lemma StartBuffers(s: Node)
    requires IsStart(s)
    ensures BufferInv(s)
  {}

  lemma {:induction false} SilenceOnlyShrinks(tr: seq<Node>, es: seq<Event>, i: nat, j: nat)
    requires IsRun(tr, es) && i <= j <= |es|
    requires forall k :: i <= k < j ==> Silent(es[k])
    ensures Fewer(tr[i], tr[j])
    decreases j
  {
    hide Step, Legal, BufferInv, Silent;
    if i < j {
      SilenceOnlyShrinks(tr, es, i, j - 1);
      BuffersAreBounded(tr, es, j - 1);
      RunStep(tr, es, j - 1);
      StepBuffers(tr[j - 1], es[j - 1]);
    }
  }

  /** If no segment bytes arrive while the deadline passes and a tick fires, reassembly drains to nothing. */
  lemma SilenceDrains(tr: seq<Node>, es: seq<Event>, i: nat, t: nat, j: nat)
    requires IsRun(tr, es) && i <= t < j <= |es| && es[t].Tick?
    requires forall k :: i <= k < j ==> Silent(es[k])
    requires tr[t + 1].now >= tr[i].now + REASM_TTL_MS
    ensures tr[j].asm.reasm == map[] && tr[j].asm.reasmBytes == 0
  {
    hide Step, Legal, Silent, BufferInv, AllYoung, Fewer;
    SilenceOnlyShrinks(tr, es, i, t + 1);
    SilenceOnlyShrinks(tr, es, t + 1, j);
    BuffersAreBounded(tr, es, i);
    BuffersAreBounded(tr, es, t + 1);
    BuffersAreBounded(tr, es, j);
    DrainedBy(tr[i], tr[t + 1], tr[j]);
  }

  lemma DrainedBy(a: Node, b: Node, c: Node)
    requires BufferInv(a) && BufferInv(c) && Fewer(a, b) && Fewer(b, c) && AllYoung(b) && b.now >= a.now + REASM_TTL_MS
    ensures c.asm.reasm == map[] && c.asm.reasmBytes == 0
  {
    hide Total, ParkInv;
    assert forall k :: k in a.asm.reasm ==> SlotOk(a.asm.reasm[k], a.now);
    assert c.asm.reasm == map[];
    EmptyHoldsNothing();
  }

  lemma EmptyHoldsNothing()
    ensures Total(Buffered(map[])) == 0
  {
    assert Buffered(map[]) == map[];
  }

  // ---- delivery ----

  /** Nothing is produced here before event `i`. */
  ghost predicate Receiving(es: seq<Event>, i: nat) { forall k :: 0 <= k < i && k < |es| ==> !es[k].Produced? }

  ghost predicate NoFloorBreak(tr: seq<Node>, es: seq<Event>, i: nat)
    requires |tr| == |es| + 1
  {
    forall k :: 0 <= k < i && k < |es| ==> !FloorBreaks(tr[k], es[k])
  }

  lemma {:induction false} DeliveryKept(tr: seq<Node>, es: seq<Event>, i: nat)
    requires IsRun(tr, es) && i <= |es| && Receiving(es, i) && NoFloorBreak(tr, es, i)
    ensures DeliveryInv(tr[i])
    decreases i
  {
    hide Step, Legal, Connected, Tally, DeliveryInv, AuthInv, FloorBreaks;
    if i == 0 {
      StartOf(tr, es);
      StartDelivery(tr[0]);
    } else {
      DeliveryKept(tr, es, i - 1);
      RequestsAreAccounted(tr, es, i - 1);
      FloorAlwaysKnown(tr, es, i - 1);
      RunStep(tr, es, i - 1);
      StepOnceExactly(tr[i - 1], es[i - 1]);
    }
  }

  lemma {:induction false} FloorAlwaysKnown(tr: seq<Node>, es: seq<Event>, i: nat)
    requires IsRun(tr, es) && i <= |es| && Receiving(es, i)
    ensures AuthInv(tr[i]) && FloorKnown(tr[i])
    decreases i
  {
    hide Step, Legal, AuthInv, Granted;
    if i == 0 {
      StartOf(tr, es);
      StartAuth(tr[0]);
    } else {
      FloorAlwaysKnown(tr, es, i - 1);
      RunStep(tr, es, i - 1);
      StepAuth(tr[i - 1], es[i - 1]);
    }
    AuthKnowsFloor(tr[i]);
  }

  lemma AuthKnowsFloor(s: Node)
    requires AuthInv(s)
    ensures FloorKnown(s)
  {}

  /** In every run without local production whose floor results arrive for segments still at or above the
      prune floor, each segment reaches the sink at most once across pull, push, hedge, parked and floor
      paths, and the delivered count is the number of distinct segments delivered. */
  lemma DeliveredAtMostOnce(tr: seq<Node>, es: seq<Event>, i: nat)
    requires IsRun(tr, es) && i <= |es| && Receiving(es, i)
    requires forall k :: 0 <= k < i && es[k].FallbackDone? ==> es[k].q >= tr[k].win.floor
    ensures DeliveryInv(tr[i]) && Distinct(tr[i].hist.sink)
    ensures tr[i].win.deliveredTotal == |Delivered(tr[i])|
  {
    hide Step, Legal, WindowInv, IsStart;
    DeliveryKept(tr, es, i);
    DistinctCardinality(tr[i].hist.sink);
  }

  /** A run without production keeps the delivery invariant throughout if and only if no floor result
      verifies below the floor for a segment already played or parked; `PlayedTwiceExactly` says which runs
      go on to play a segment twice. */
  lemma DeliveryBreaksExactly(tr: seq<Node>, es: seq<Event>, i: nat)
    requires IsRun(tr, es) && i <= |es| && Receiving(es, i)
    ensures (forall k :: 0 <= k <= i ==> DeliveryInv(tr[k])) <==> NoFloorBreak(tr, es, i)
  {
    hide Step, Legal, DeliveryInv, FloorBreaks, Connected, Tally, AuthInv, FloorKnown, IsStart;
    if NoFloorBreak(tr, es, i) {
      forall k | 0 <= k <= i ensures DeliveryInv(tr[k]) { DeliveryKept(tr, es, k); }
    }
    if forall k :: 0 <= k <= i ==> DeliveryInv(tr[k]) {
      forall k | 0 <= k < i ensures !FloorBreaks(tr[k], es[k]) {
        RequestsAreAccounted(tr, es, k);
        FloorAlwaysKnown(tr, es, k);
        RunStep(tr, es, k);
        StepOnceExactly(tr[k], es[k]);
      }
    }
  }

  lemma {:induction false} HeldThroughout(tr: seq<Node>, es: seq<Event>, i: nat)
    requires IsRun(tr, es) && i <= |es| && Receiving(es, i)
    ensures MeshRepeat.Held(tr[i])
    ensures i < |es| && !es[i].Produced? ==>
              MeshRepeat.Outcome(tr[i], tr[i + 1], MeshRepeat.Repeats(tr[i], es[i])) && MeshRepeat.Held(tr[i + 1])
    decreases i
  {
    hide Step, Legal, Connected, Tally, WindowInv, ParkedUnknown, FloorKnown, AuthInv, ProducesParked,
         MeshRepeat.Held, MeshRepeat.Repeats, MeshRepeat.Outcome;
    if i == 0 {
      StartOf(tr, es);
      StartHeld(tr[0]);
    } else {
      HeldThroughout(tr, es, i - 1);
    }
    if i < |es| && !es[i].Produced? {
      RequestsAreAccounted(tr, es, i);
      FloorAlwaysKnown(tr, es, i);
      WindowOnlySlides(tr, es, i, i);
      NeverProducesParked(tr, es, i);
      ParkedIsUnknownExactly(tr, es, i);
      RunStep(tr, es, i);
      MeshRepeat.StepHeld(tr[i], es[i]);
    }
  }

  lemma NeverProducesParked(tr: seq<Node>, es: seq<Event>, i: nat)
    requires |tr| == |es| + 1 && i <= |es| && Receiving(es, i)
    ensures forall k :: 0 <= k < i ==> !ProducesParked(tr[k], es[k])
  {}

  lemma StartHeld(s: Node)
    requires IsStart(s)
    ensures MeshRepeat.Held(s) && Distinct(s.hist.sink)
  {}

  /** The law itself, both ways: in a run without local production every segment is played at most once up
      to `i` if and only if no event before `i` was a floor result that verifies below the floor, or an edge
      that verifies parked bytes, for a segment already played. */
  lemma {:induction false} PlayedTwiceExactly(tr: seq<Node>, es: seq<Event>, i: nat)
    requires IsRun(tr, es) && i <= |es| && Receiving(es, i)
    ensures Distinct(tr[i].hist.sink) <==> forall k :: 0 <= k < i ==> !MeshRepeat.Repeats(tr[k], es[k])
    decreases i
  {
    hide Step, Legal, Distinct, MeshRepeat.Held, MeshRepeat.Repeats, MeshRepeat.Outcome;
    if i == 0 {
      StartOf(tr, es);
      StartHeld(tr[0]);
    } else {
      PlayedTwiceExactly(tr, es, i - 1);
      HeldThroughout(tr, es, i - 1);
      MeshRepeat.OutcomeDecides(tr[i - 1], tr[i], MeshRepeat.Repeats(tr[i - 1], es[i - 1]));
    }
  }

  lemma {:induction false} DistinctCardinality(sink: seq<(Seq, Bytes)>)
    requires Distinct(sink)
    ensures |Seqs(sink)| == |sink|
    decreases |sink|
  {
    if sink == [] {
      assert Seqs(sink) == {};
    } else {
      var init, last := sink[..|sink| - 1], sink[|sink| - 1];
      assert sink == init + [last];
      DistinctCardinality(init);
      SinkAppend(init, last.0, last.1);
      assert last.0 !in Seqs(init);
    }
  }

  /** Between any two moments of any run the prune floor only rises, it is the local map's base, a
      non-empty window stays non-empty and its newest segment never goes back. */
  lemma {:induction false} WindowOnlySlides(tr: seq<Node>, es: seq<Event>, i: nat, j: nat)
    requires IsRun(tr, es) && i <= j <= |es|
    ensures WindowInv(tr[j]) && tr[j].win.local.base == tr[j].win.floor
    ensures tr[i].win.floor <= tr[j].win.floor && NotBehind(tr[i].win.local, tr[j].win.local)
    ensures tr[i].win.local.Members() != {} ==> tr[j].win.local.Members() != {}
    decreases j - i, j
  {
    hide Step, Legal, BufMap.Highest;
    if j == 0 {
      StartOf(tr, es);
      StartDelivery(tr[0]);
    } else if i == j {
      WindowOnlySlides(tr, es, i - 1, i - 1);
      RunStep(tr, es, i - 1);
      StepSlides(tr[i - 1], es[i - 1]);
    } else {
      WindowOnlySlides(tr, es, i, j - 1);
      RunStep(tr, es, j - 1);
      StepSlides(tr[j - 1], es[j - 1]);
    }
    if i < j { WindowOnlySlides(tr, es, i, i); }
    HighestIsGreatest(tr[i].win.local);
    HighestIsGreatest(tr[j].win.local);
  }

  // ---- authenticity ----

  /** `(q, id)` was in the initial map or vouched for by an event before `i`. */
  ghost predicate VouchedBefore(tr: seq<Node>, es: seq<Event>, i: nat, q: Seq, id: Digest)
    requires |tr| == |es| + 1
  {
    (q, id) in tr[0].edge.ids.Items || exists k :: 0 <= k < i && k < |es| && (q, id) in Granted(tr[k], es[k])
  }

  /** Every id any run ever records was in the initial map or vouched for by an earlier event. */
  lemma {:induction false} IdsAreVouchedFor(tr: seq<Node>, es: seq<Event>, i: nat)
    requires IsRun(tr, es) && i <= |es|
    ensures tr[i].env == tr[0].env
    ensures forall q, id :: (q, id) in tr[i].hist.recorded ==> VouchedBefore(tr, es, i, q, id)
    decreases i
  {
    hide Step, Legal, Granted;
    if i == 0 {
      StartOf(tr, es);
      StartAuth(tr[0]);
    } else {
      IdsAreVouchedFor(tr, es, i - 1);
      RunStep(tr, es, i - 1);
      StepRecords(tr[i - 1], es[i - 1]);
      forall q, id | (q, id) in tr[i].hist.recorded ensures VouchedBefore(tr, es, i, q, id) {
        if (q, id) !in Granted(tr[i - 1], es[i - 1]) {
          assert (q, id) in tr[i - 1].hist.recorded;
        }
      }
    }
  }

  /** With the local segmenter labelling truly, store and sink are authentic in every state. */
  lemma {:induction false} AlwaysAuthentic(tr: seq<Node>, es: seq<Event>, i: nat)
    requires IsRun(tr, es) && i <= |es|
    requires forall k :: 0 <= k < |es| ==> TrueLabels(tr[k], es[k])
    ensures AuthInv(tr[i])
    decreases i
  {
    hide Step, Legal, AuthInv, Granted, TrueLabels;
    if i == 0 {
      StartOf(tr, es);
      StartAuth(tr[0]);
    } else {
      AlwaysAuthentic(tr, es, i - 1);
      RunStep(tr, es, i - 1);
      StepAuth(tr[i - 1], es[i - 1]);
    }
  }

  lemma StartAuth(s: Node)
    requires IsStart(s)
    ensures AuthInv(s) && s.hist.recorded == s.edge.ids.Items
  {}

  /** Whatever a run has played or holds hashes to an id vouched for that very segment: by the initial
      map, the chain edge, the local segmenter, or a gossiped edge signed by the publisher. */
  lemma OnlyAuthenticBytes(tr: seq<Node>, es: seq<Event>, i: nat)
    requires IsRun(tr, es) && i <= |es|
    requires forall k :: 0 <= k < |es| ==> TrueLabels(tr[k], es[k])
    ensures forall n :: 0 <= n < |tr[i].hist.sink| ==>
              VouchedBefore(tr, es, i, tr[i].hist.sink[n].0, tr[0].env.crypto.hash(tr[i].hist.sink[n].1))
    ensures forall q: Seq :: tr[i].win.store.Get(q).Some? ==>
              VouchedBefore(tr, es, i, q, tr[0].env.crypto.hash(tr[i].win.store.Get(q).value))
  {
    hide Step, Legal, Granted, TrueLabels, VouchedBefore;
    IdsAreVouchedFor(tr, es, i);
    AlwaysAuthentic(tr, es, i);
    forall q: Seq | tr[i].win.store.Get(q).Some?
      ensures VouchedBefore(tr, es, i, q, tr[0].env.crypto.hash(tr[i].win.store.Get(q).value))
    {
      GetAddressed(tr[i].win.store, tr[i].env.crypto.hash, q);
    }
  }

  /** A peer that only ever sends true slices is never charged with a forgery, whatever the others send,
      as long as every id recorded by the end is the real one. */
  lemma {:induction false} HonestPeerIsNeverBlamed(tr: seq<Node>, es: seq<Event>, i: nat, h: Peer, real_: Stream)
    requires IsRun(tr, es) && i <= |es|
    requires forall k :: 0 <= k < |es| ==> TrueLabels(tr[k], es[k]) && SpeaksTruth(h, real_, es[k])
    requires RealIds(tr[i], real_)
    ensures HonestInv(tr[i], h, real_) && Charged(h, HashFail) !in tr[i].hist.conduct
    decreases i
  {
    hide Step, Legal, TrueLabels, SpeaksTruth, Granted, SlotTrue, VouchedBefore;
    if i == 0 {
      StartOf(tr, es);
    } else {
      RunStep(tr, es, i - 1);
      IdsAreVouchedFor(tr, es, i - 1);
      AlwaysAuthentic(tr, es, i - 1);
      StepAuth(tr[i - 1], es[i - 1]);
      HonestPeerIsNeverBlamed(tr, es, i - 1, h, real_);
      StepHonest(tr[i - 1], es[i - 1], h, real_);
    }
  }

  // ---- upload ----

  lemma {:induction false} MeteredStretch(tr: seq<Node>, es: seq<Event>, i: nat, j: nat)
    requires IsRun(tr, es) && i <= j <= |es|
    requires tr[0].cfg.budget > 0 && !tr[0].win.store.disk
    requires forall k :: 0 <= k < |es| ==> !es[k].SetUploadBudget?
    ensures MeterInv(tr[i]) && MeterInv(tr[j]) && Paid(tr[i], tr[j])
    ensures tr[j].cfg.budget == tr[0].cfg.budget && tr[j].env.segBytes == tr[0].env.segBytes
    decreases j - i, j
  {
    hide Step, Legal, Earned, Burst;
    if j == 0 {
      StartOf(tr, es);
      StartMeter(tr[0]);
      MeterFrame(tr[0], tr[0]);
    } else if i == j {
      MeteredStretch(tr, es, i - 1, i - 1);
      RunStep(tr, es, i - 1);
      StepSpends(tr[i - 1], es[i - 1]);
      MeterFrame(tr[i], tr[i]);
    } else {
      MeteredStretch(tr, es, i, j - 1);
      RunStep(tr, es, j - 1);
      StepSpends(tr[j - 1], es[j - 1]);
      PaidComposes(tr[i], tr[j - 1], tr[j]);
    }
  }

  lemma StartMeter(s: Node)
    requires IsStart(s) && s.cfg.budget > 0 && !s.win.store.disk
    ensures MeterInv(s)
  {}

  /** With a constant positive budget and a memory store, the segment bytes sent in any stretch of a run,
      paced or pushed, are at most one burst plus the budget over the tick time that passed. */
  lemma UploadIsMetered(tr: seq<Node>, es: seq<Event>, i: nat, j: nat)
    requires IsRun(tr, es) && i <= j <= |es|
    requires tr[0].cfg.budget > 0 && !tr[0].win.store.disk
    requires forall k :: 0 <= k < |es| ==> !es[k].SetUploadBudget?
    ensures tr[i].meter.tokenMs <= tr[j].meter.tokenMs
    ensures (tr[j].hist.sent - tr[i].hist.sent) as real
            <= Burst(tr[0].cfg.budget, tr[0].env.segBytes)
               + tr[0].cfg.budget as real / 8.0 * ((tr[j].meter.tokenMs - tr[i].meter.tokenMs) as real / 1000.0)
    ensures 0.0 <= tr[j].meter.tokens <= Burst(tr[0].cfg.budget, tr[0].env.segBytes)
  {
    hide Step, Legal, Burst;
    MeteredStretch(tr, es, i, j);
    MeteredStretch(tr, es, i, i);
  }

  /** What the budgets in force earn between two moments. */
  ghost function EarnedOver(tr: seq<Node>, i: nat, j: nat): real
    requires i <= j < |tr|
    decreases j
  {
    if i == j then 0.0 else
      EarnedOver(tr, i, j - 1) + Earned(tr[j - 1].cfg.budget, SatSub(tr[j].meter.tokenMs, tr[j - 1].meter.tokenMs))
  }

  lemma {:induction false} MeterAlwaysSound(tr: seq<Node>, es: seq<Event>, i: nat)
    requires IsRun(tr, es) && i <= |es| && tr[0].cfg.budget > 0 && !tr[0].win.store.disk
    requires forall k :: 0 <= k < |es| && es[k].SetUploadBudget? ==> es[k].bps > 0
    ensures MeterInv(tr[i]) && tr[i].env.segBytes == tr[0].env.segBytes
    decreases i
  {
    hide Step, Legal, Earned, Burst;
    if i == 0 {
      StartOf(tr, es);
      StartMeter(tr[0]);
    } else {
      MeterAlwaysSound(tr, es, i - 1);
      RunStep(tr, es, i - 1);
      StepSpendsAtRate(tr[i - 1], es[i - 1]);
    }
  }

  /** However the budget is changed among positive values, the bytes sent in any stretch are at most one
      burst of the budget at its start plus what the budgets in force earned. */
  lemma {:induction false} UploadFollowsTheBudget(tr: seq<Node>, es: seq<Event>, i: nat, j: nat)
    requires IsRun(tr, es) && i <= j <= |es| && tr[0].cfg.budget > 0 && !tr[0].win.store.disk
    requires forall k :: 0 <= k < |es| && es[k].SetUploadBudget? ==> es[k].bps > 0
    ensures (tr[j].hist.sent - tr[i].hist.sent) as real
            <= tr[i].meter.tokens - tr[j].meter.tokens + EarnedOver(tr, i, j)
    ensures (tr[j].hist.sent - tr[i].hist.sent) as real
            <= Burst(tr[i].cfg.budget, tr[0].env.segBytes) + EarnedOver(tr, i, j)
    ensures 0.0 <= tr[j].meter.tokens <= Burst(tr[j].cfg.budget, tr[0].env.segBytes)
    decreases j
  {
    hide Step, Legal, Earned, Burst;
    MeterAlwaysSound(tr, es, i);
    MeterAlwaysSound(tr, es, j);
    if i < j {
      UploadFollowsTheBudget(tr, es, i, j - 1);
      MeterAlwaysSound(tr, es, j - 1);
      RunStep(tr, es, j - 1);
      StepSpendsAtRate(tr[j - 1], es[j - 1]);
    }
  }

  // ---- conduct ----

  /** Every ban in any run follows directly on an offence, at least the second since the peer joined or
      last timed out; reputations stay in (0, 1]. */
  lemma {:induction false} BansAreEarned(tr: seq<Node>, es: seq<Event>, i: nat)
    requires IsRun(tr, es) && i <= |es|
    ensures BansEarned(tr[i].hist.conduct) && ConductInv(tr[i])
    ensures forall p :: p in tr[i].peers ==> 0.0 < tr[i].peers[p].reputation <= 1.0
    decreases i
  {
    hide Step, Legal, BansEarned, Offences;
    if i == 0 {
      StartOf(tr, es);
      StartConduct(tr[0]);
    } else {
      BansAreEarned(tr, es, i - 1);
      RunStep(tr, es, i - 1);
      StepConduct(tr[i - 1], es[i - 1]);
    }
  }

  lemma StartConduct(s: Node)
    requires IsStart(s)
    ensures ConductInv(s)
  {}

  /** Every reputation below the floor is a ban: in every state of every run a peer is banned exactly when the
      record shows a ban since it joined, one below the floor is banned, and a banned peer has neither a
      subscription nor a reassembly slot. */
  lemma {:induction false} BelowTheFloorIsBanned(tr: seq<Node>, es: seq<Event>, i: nat)
    requires IsRun(tr, es) && i <= |es|
    ensures MeshBans.BanInv(tr[i])
    ensures forall p :: p in tr[i].peers ==>
              && (tr[i].peers[p].reputation < REPUTATION_FLOOR ==> tr[i].peers[p].banned)
              && (tr[i].peers[p].banned <==> MeshBans.Out(tr[i].hist.conduct, p))
              && (tr[i].peers[p].banned ==> p !in tr[i].subscribers)
    ensures forall k :: k in tr[i].asm.reasm && k.0 in tr[i].peers ==> !tr[i].peers[k.0].banned
    decreases i
  {
    hide Step, Legal, MeshBans.Out;
    if i == 0 {
      StartOf(tr, es);
      StartBans(tr[0]);
    } else {
      BelowTheFloorIsBanned(tr, es, i - 1);
      RunStep(tr, es, i - 1);
      MeshBans.StepBans(tr[i - 1], es[i - 1]);
    }
    assert forall p :: p in tr[i].peers ==>
      MeshBans.Judged(tr[i].peers[p], MeshBans.Out(tr[i].hist.conduct, p), p in tr[i].subscribers);
  }

  lemma StartBans(s: Node)
    requires IsStart(s)
    ensures MeshBans.BanInv(s)
  {}

  // ---- choking ----

  /** From the moment a peer chokes us until it unchokes us or leaves, it is asked for nothing new. */
  lemma {:induction false} ChokingPeerIsNotAsked(tr: seq<Node>, es: seq<Event>, i: nat, j: nat, p: Peer)
    requires IsRun(tr, es) && i <= j <= |es| && Chokes(tr[i], p)
    requires forall k :: i <= k < j ==> LeavesChoked(p, es[k])
    ensures Chokes(tr[j], p) && Outstanding(tr[j].flight, p) <= Outstanding(tr[i].flight, p) && tr[i].now <= tr[j].now
    decreases j
  {
    hide Step, Legal, Outstanding, LeavesChoked;
    if i < j {
      ChokingPeerIsNotAsked(tr, es, i, j - 1, p);
      RunStep(tr, es, j - 1);
      StepCalm(p, tr[j - 1], es[j - 1]);
    }
  }

  /** An event by which `p`, while we listen to it, says it will or will not serve us. */
  ghost predicate SaysChoke(s: Node, e: Event, p: Peer, yes: bool) {
    MeshEffects.Says(s, e, p) && (if yes then e.msg.Choke? else e.msg.Unchoke?)
  }

  ghost predicate NotUnchoked(tr: seq<Node>, es: seq<Event>, i: nat, j: nat, p: Peer)
    requires j <= |es| < |tr|
  {
    forall k :: i <= k < j ==> !SaysChoke(tr[k], es[k], p, false)
  }

  /** Over every run, while a peer stays in the table from `i` to `j`: we hold it to choke us at `j` exactly when
      it did at `i` or has said so since, and has not taken it back after. */
  lemma {:induction false} ChokesUsExactly(tr: seq<Node>, es: seq<Event>, i: nat, j: nat, p: Peer)
    requires IsRun(tr, es) && i <= j <= |es| && (forall k :: i <= k <= j ==> p in tr[k].peers)
    ensures tr[j].peers[p].chokedBy <==>
            || (tr[i].peers[p].chokedBy && NotUnchoked(tr, es, i, j, p))
            || exists k :: i <= k < j && SaysChoke(tr[k], es[k], p, true) && NotUnchoked(tr, es, k + 1, j, p)
    decreases j
  {
    hide Step, Legal, IsStart;
    if i < j {
      ChokesUsExactly(tr, es, i, j - 1, p);
      RunStep(tr, es, j - 1);
      var s, e := tr[j - 1], es[j - 1];
      assert e != PeerDisconnected(p) by { if e == PeerDisconnected(p) { Leaves(s, p); } }
      MeshEffects.StepTells(p, s, e);
      hide IsRun;
      forall k | i <= k <= j ensures NotUnchoked(tr, es, k, j, p) <==>
          (k == j || (NotUnchoked(tr, es, k, j - 1, p) && !SaysChoke(s, e, p, false))) {}
      hide NotUnchoked;
      if SaysChoke(s, e, p, true) { assert NotUnchoked(tr, es, j - 1 + 1, j, p); }
    }
  }

  lemma Leaves(s: Node, p: Peer)
    ensures Legal(s, PeerDisconnected(p)) && p !in Step(s, PeerDisconnected(p)).peers
  {}

  /** And once the request timeout has passed and a tick fired, it owes and is billed for nothing. */
  lemma ChokingPeerDrains(tr: seq<Node>, es: seq<Event>, i: nat, t: nat, j: nat, p: Peer)
    requires IsRun(tr, es) && i <= t < j <= |es| && Chokes(tr[i], p) && es[t].Tick?
    requires forall k :: i <= k < j ==> LeavesChoked(p, es[k])
    requires tr[t + 1].now >= tr[i].now + PENDING_TIMEOUT_MS
    ensures Outstanding(tr[j].flight, p) == {} && p in tr[j].peers && tr[j].peers[p].pendingBytes == 0
  {
    hide Step, Legal, LeavesChoked, Outstanding, Tally, Connected, AllFresh;
    ChokingPeerIsNotAsked(tr, es, i, t + 1, p);
    ChokingPeerIsNotAsked(tr, es, t + 1, j, p);
    RequestsAreAccounted(tr, es, i);
    RequestsAreAccounted(tr, es, t + 1);
    RequestsAreAccounted(tr, es, j);
    AskedByNow(tr[i], p);
    NoneStale(tr[t + 1], p);
    NothingOwed(tr[j], p);
  }

  lemma AskedByNow(s: Node, p: Peer)
    requires Connected(s)
    ensures forall a :: a in Outstanding(s.flight, p) ==> a.1 <= s.now
  {}

  lemma NoneStale(s: Node, p: Peer)
    requires AllFresh(s)
    ensures forall a :: a in Outstanding(s.flight, p) ==> s.now < a.1 + PENDING_TIMEOUT_MS
  {}

  lemma AskedIsOwed(m: map<Seq, Ask>, p: Peer)
    ensures forall q :: q in AsksTo(m, p) ==> (q, m[q].sent) in AskedIn(m, p)
  {}

  lemma NothingOwed(s: Node, p: Peer)
    requires Tally(s) && p in s.peers && Outstanding(s.flight, p) == {}
    ensures s.peers[p].pendingBytes == 0
  {
    AskedIsOwed(s.flight.pending, p);
    AskedIsOwed(s.flight.hedge, p);
    assert AsksTo(s.flight.pending, p) == {} && AsksTo(s.flight.hedge, p) == {};
  }

  /** Since its last moment as a viewer, a node chokes exactly the peers it choked then and that have not
      left since: a new seed or publisher keeps the flags it had. */
  lemma {:induction false} NonViewerChokesExactly(tr: seq<Node>, es: seq<Event>, v: nat, j: nat, p: Peer)
    requires IsRun(tr, es) && v < j <= |es| && tr[v].cfg.role == Viewer
    requires forall k :: v < k <= j ==> tr[k].cfg.role != Viewer
    ensures Choked(tr[j], p) <==> Choked(tr[v], p) && forall k :: v <= k < j ==> es[k] != PeerDisconnected(p)
    decreases j
  {
    hide Step, Legal, Choked, IsStart;
    RunStep(tr, es, j - 1);
    StepFlag(p, tr[j - 1], es[j - 1]);
    if v < j - 1 { NonViewerChokesExactly(tr, es, v, j - 1, p); }
  }

  /** A node that has never been a viewer chokes nobody. */
  lemma {:induction false} NeverViewerNeverChokes(tr: seq<Node>, es: seq<Event>, j: nat, p: Peer)
    requires IsRun(tr, es) && j <= |es| && forall k :: 0 <= k < j ==> tr[k].cfg.role != Viewer
    ensures !Choked(tr[j], p)
    decreases j
  {
    hide Step, Legal;
    if j == 0 {
      StartOf(tr, es);
    } else {
      NeverViewerNeverChokes(tr, es, j - 1, p);
      RunStep(tr, es, j - 1);
      StepFlag(p, tr[j - 1], es[j - 1]);
    }
  }

  // ---- all at once ----

  /** What holds in every reachable state. */
  ghost predicate Sound(s: Node) {
    && Tally(s) && Connected(s) && BufferInv(s) && s.asm.reasmBytes <= MAX_REASM * MAX_SEGMENT_BYTES
    && WindowInv(s) && ConductInv(s)
  }

  /** Nothing was produced here, and every floor result came for a segment at or above the prune floor. */
  ghost predicate OnTime(tr: seq<Node>, es: seq<Event>)
    requires |tr| == |es| + 1
  {
    forall k :: 0 <= k < |es| ==> !es[k].Produced? && (es[k].FallbackDone? ==> es[k].q >= tr[k].win.floor)
  }

  lemma EveryStateIsSound(tr: seq<Node>, es: seq<Event>)
    requires IsRun(tr, es)
    ensures Sound(tr[|es|])
    ensures es != [] && es[|es| - 1].Tick? ==> AllFresh(tr[|es|]) && AllYoung(tr[|es|])
    ensures OnTime(tr, es) ==> DeliveryInv(tr[|es|]) && tr[|es|].win.deliveredTotal == |Delivered(tr[|es|])|
  {
    hide Step, Legal, IsStart, Tally, Connected, BufferInv, WindowInv, ConductInv, AllFresh, AllYoung, DeliveryInv,
        Delivered;
    RequestsAreAccounted(tr, es, |es|);
    BuffersAreBounded(tr, es, |es|);
    WindowOnlySlides(tr, es, |es|, |es|);
    BansAreEarned(tr, es, |es|);
    if OnTime(tr, es) { DeliveredAtMostOnce(tr, es, |es|); }
  }

  /** A legal event extends a run. */
  lemma RunExtends(tr: seq<Node>, es: seq<Event>, e: Event, s: Node)
    requires IsRun(tr, es) && Legal(tr[|es|], e) && s == Step(tr[|es|], e)
    ensures IsRun(tr + [s], es + [e])
  {
    hide Step, Legal, IsStart;
    var tr', es' := tr + [s], es + [e];
    forall i | 0 <= i < |es'| ensures Legal(tr'[i], es'[i]) && tr'[i + 1] == Step(tr'[i], es'[i]) {
      if i < |es| { assert tr'[i] == tr[i] && tr'[i + 1] == tr[i + 1] && es'[i] == es[i]; }
    }
  }
}
