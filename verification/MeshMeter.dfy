/** The upload budget over every run: a token bucket bounds the bytes sent in any stretch. */
module MeshMeter {
  import opened Common
  import opened BufferMaps
  import opened Reassembly
  import opened SegmentStores
  import opened Picker
  import opened MeshState

  /** Bytes the budget earns in `ms` milliseconds. */
  function Earned(budget: nat, ms: nat): real { budget as real / 8.0 * (ms as real / 1000.0) }

  lemma EarnedAdds(budget: nat, a: nat, b: nat)
    ensures Earned(budget, a + b) == Earned(budget, a) + Earned(budget, b)
    ensures Earned(budget, a) >= 0.0
  {
    var r := budget as real / 8.0;
    RealScale(r, a as real / 1000.0, b as real / 1000.0);
    assert (a + b) as real / 1000.0 == a as real / 1000.0 + b as real / 1000.0;
  }

  lemma RealScale(r: real, x: real, y: real)
    requires r >= 0.0
    ensures r * (x + y) == r * x + r * y
    ensures x >= 0.0 ==> r * x >= 0.0
  {}

  /** Metered, served from memory, with the bucket between empty and full. */
  ghost predicate MeterInv(s: Node) {
    && s.cfg.budget > 0 && !s.win.store.disk
    && 0.0 <= s.meter.tokens <= Burst(s.cfg.budget, s.env.segBytes)
    && s.meter.tokenMs <= s.now
  }

  /** From `s` to `t` no more was sent than was earned plus taken out of the bucket. */
  ghost predicate Paid(s: Node, t: Node) {
    && t.cfg.budget == s.cfg.budget && t.env.segBytes == s.env.segBytes
    && t.win.store.disk == s.win.store.disk && t.now >= s.now
    && s.meter.tokenMs <= t.meter.tokenMs && s.hist.sent <= t.hist.sent
    && (t.hist.sent - s.hist.sent) as real
       <= s.meter.tokens - t.meter.tokens + Earned(s.cfg.budget, t.meter.tokenMs - s.meter.tokenMs)
  }

  ghost predicate Spends(s: Node, t: Node) { MeterInv(t) && Paid(s, t) }

  ghost predicate SameMeter(s: Node, t: Node) {
    && t.cfg.budget == s.cfg.budget && t.env.segBytes == s.env.segBytes && t.now >= s.now
    && t.win.store.disk == s.win.store.disk
    && t.meter.tokens == s.meter.tokens && t.meter.tokenMs == s.meter.tokenMs && t.hist.sent == s.hist.sent
  }

  lemma MeterFrame(s: Node, t: Node)
    requires MeterInv(s) && SameMeter(s, t)
    ensures Spends(s, t)
  {
    assert Earned(s.cfg.budget, 0) == 0.0;
  }

  /** Stretches compose. */
  lemma PaidComposes(s: Node, t: Node, u: Node)
    requires Paid(s, t) && Paid(t, u)
    ensures Paid(s, u)
  {
    EarnedAdds(s.cfg.budget, t.meter.tokenMs - s.meter.tokenMs, u.meter.tokenMs - t.meter.tokenMs);
  }

  // ---- pushes ----

  lemma {:induction false} LedgerPays(links: set<Peer>, size: nat, targets: seq<Peer>, tokens: real, sent: nat)
    requires tokens >= 0.0
    ensures var (t, n) := PushLedger(links, true, size, targets, tokens, sent);
      0.0 <= t <= tokens && sent <= n && (n - sent) as real <= tokens - t
    decreases |targets|
  {
    if targets != [] && tokens >= size as real {
      LedgerPays(links, size, targets[1..], tokens - size as real, if targets[0] in links then sent + size else sent);
    }
  }

  lemma PushSpends(s: Node, q: Seq, order: seq<Peer>)
    requires MeterInv(s)
    ensures Spends(s, PushToSubscribers(s, q, order))
  {
    hide PushLedger, Targets, Burst;
    assert Earned(s.cfg.budget, 0) == 0.0;
    if s.win.store.Get(q).Some? {
      LedgerPays(s.links, |s.win.store.Get(q).value|, Targets(s, q, order), s.meter.tokens, s.hist.sent);
    }
  }

  lemma KeepSameMeter(s: Node, q: Seq, id: Digest, b: Bytes)
    ensures SameMeter(s, Keep(s, q, id, b))
  {
    EvictOrphans(s.win.store.(index := s.win.store.index[q := id], mem := s.win.store.mem[q := b]));
  }

  lemma DeliverSpends(s: Node, q: Seq, id: Digest, b: Bytes, order: seq<Peer>)
    requires MeterInv(s)
    ensures Spends(s, DeliverVerified(s, q, id, b, order))
  {
    hide Keep, PushToSubscribers, MeterInv;
    KeepSameMeter(s, q, id, b);
    var k := Keep(s, q, id, b);
    var d := k.(hist := k.hist.(sink := k.hist.sink + [(q, b)]));
    MeterFrame(s, d);
    PushSpends(d, q, order);
    PaidComposes(s, d, DeliverVerified(s, q, id, b, order));
  }

  lemma ClearSameMeter(s: Node, q: Seq)
    ensures SameMeter(s, ClearPending(s, q)) && ClearPending(s, q).edge == s.edge
  {}

  lemma PenalizeSameMeter(s: Node, p: Peer, why: Penalty)
    ensures SameMeter(s, Penalize(s, p, why))
  {}

  lemma AcceptSpends(s: Node, p: Peer, q: Seq, id: Digest, b: Bytes, order: seq<Peer>)
    requires MeterInv(s)
    ensures Spends(s, AcceptSegment(s, p, q, id, b, order))
  {
    hide ClearPending, DeliverVerified, MeterInv;
    ClearSameMeter(s, q);
    var d := Credit(ClearPending(s, q), p, AskedFor(s, q), |b|);
    MeterFrame(s, d);
    DeliverSpends(d, q, id, b, order);
    PaidComposes(s, d, AcceptSegment(s, p, q, id, b, order));
  }

  lemma ApplyEdgeSpends(s: Node, q: Seq, id: Digest, order: seq<Peer>)
    requires MeterInv(s)
    ensures Spends(s, ApplyEdge(s, q, id, order))
  {
    hide AcceptSegment, Penalize, MeterInv, Paid;
    var r := Record(s, q, id);
    MeterFrame(s, r);
    if q in r.park.parked {
      var u, p, raw := Unpark(r, q), r.park.parked[q].peer, r.park.parked[q].raw;
      MeterFrame(s, u);
      PenalizeSameMeter(u, p, HashFail);
      MeterFrame(u, Penalize(u, p, HashFail));
      PaidComposes(s, u, Penalize(u, p, HashFail));
      AcceptSpends(u, p, q, id, raw, order);
      PaidComposes(s, u, AcceptSegment(u, p, q, id, raw, order));
    }
  }

  lemma CompletedSpends(s: Node, p: Peer, q: Seq, r: Reasm, order: seq<Peer>)
    requires MeterInv(s)
    ensures Spends(s, Completed(s, p, q, r, order))
  {
    hide AcceptSegment, Penalize, ClearPending, MeterInv, Paid;
    ClearSameMeter(s, q);
    var c := ClearPending(s, q);
    MeterFrame(s, c);
    PenalizeSameMeter(c, p, HashFail);
    MeterFrame(c, Penalize(c, p, HashFail));
    PaidComposes(s, c, Penalize(c, p, HashFail));
    MeterFrame(s, Park(c, p, q, r.Assembled()));
    if q in s.edge.ids { AcceptSpends(s, p, q, s.edge.ids[q], r.Assembled(), order); }
  }

  lemma SegmentDataSpends(s: Node, p: Peer, q: Seq, total: nat, offset: nat, chunk: Bytes, order: seq<Peer>)
    requires MeterInv(s)
    ensures Spends(s, OnSegmentData(s, p, q, total, offset, chunk, order))
  {
    hide Completed, Penalize, SlotRefused, Spray, Asked, InPushWindow, Total, Restrict, MeterInv, Paid;
    PenalizeSameMeter(s, p, ProtocolAbuse);
    MeterFrame(s, Penalize(s, p, ProtocolAbuse));
    MeterFrame(s, s);
    var s1 := BufferChunk(s, (p, q), total, offset, chunk);
    MeterFrame(s, s1);
    var s2 := DropSlots(s1, {(p, q)});
    MeterFrame(s, s2);
    CompletedSpends(s2, p, q, s1.asm.reasm[(p, q)].r, order);
    PaidComposes(s, s2, Completed(s2, p, q, s1.asm.reasm[(p, q)].r, order));
  }

  // ---- the tick ----

  /** A refill adds at most what the elapsed time earned, and never overfills. */
  lemma RefillSpends(s: Node)
    requires MeterInv(s)
    ensures Spends(s, TickRefill(s))
  {
    EarnedAdds(s.cfg.budget, s.now - s.meter.tokenMs, 0);
  }

  lemma {:induction false} QueuePays(store: Store, linked: bool, segBytes: nat, served: nat, v: Serving)
    requires !store.disk && v.tokens >= 0.0
    ensures var w := ServeQueue(store, linked, true, segBytes, served, v);
      0.0 <= w.tokens <= v.tokens && v.sent <= w.sent && (w.sent - v.sent) as real <= v.tokens - w.tokens
    decreases |v.queue|
  {
    if served < SERVE_BYTES_PER_TICK && v.queue != [] {
      var q := v.queue[0];
      if q in store.mem {
        var size := |store.mem[q]|;
        if v.tokens >= size as real {
          QueuePays(store, linked, segBytes, served + size,
                    Serving(v.queue[1..], v.tokens - size as real, if linked then v.sent + size else v.sent));
        }
      } else {
        QueuePays(store, linked, segBytes, served, v.(queue := v.queue[1..]));
      }
    }
  }

  lemma ServePeerSpends(s: Node, p: Peer)
    requires MeterInv(s)
    ensures Spends(s, ServePeer(s, p))
  {
    hide ServeQueue, Burst;
    assert Earned(s.cfg.budget, 0) == 0.0;
    if p in s.peers {
      QueuePays(s.win.store, p in s.links, s.env.segBytes, 0, Serving(s.peers[p].queue, s.meter.tokens, s.hist.sent));
    }
  }

  lemma {:induction false} ServeSpends(s: Node, order: seq<Peer>)
    requires MeterInv(s)
    ensures Spends(s, TickServe(s, order))
    decreases |order|
  {
    hide ServePeer, MeterInv, Paid;
    if order == [] {
      MeterFrame(s, s);
    } else {
      ServeSpends(s, order[..|order| - 1]);
      var t := TickServe(s, order[..|order| - 1]);
      ServePeerSpends(t, order[|order| - 1]);
      PaidComposes(s, t, TickServe(s, order));
    }
  }

  lemma {:induction false} ExpireSameMeter(s: Node, order: seq<Seq>)
    ensures SameMeter(s, TickExpire(s, order))
    decreases |order|
  {
    hide ClearPending, Penalize, Total, Restrict;
    if order != [] {
      ExpireSameMeter(s, order[..|order| - 1]);
      var t, q := TickExpire(s, order[..|order| - 1]), order[|order| - 1];
      if Stale(t, q) {
        ClearSameMeter(t, q);
        var p := t.flight.pending[q].peer;
        PenalizeSameMeter(DropSlots(ClearPending(t, q), {(p, q)}), p, Timeout);
      }
    }
  }

  lemma UpkeepSameMeter(s: Node, t: TickInput)
    ensures SameMeter(s, TickUpkeep(s, t))
  {
    hide TickExpire, Total, Restrict;
    ExpireSameMeter(s, t.askOrder);
  }

  lemma {:induction false} IssueSameMeter(s: Node, rs: seq<Request>)
    ensures SameMeter(s, IssueAll(s, rs))
    decreases |rs|
  {
    if rs != [] { IssueSameMeter(s, rs[..|rs| - 1]); }
  }

  lemma PruneSameMeter(s: Node)
    ensures SameMeter(s, TickPrune(s))
  {}

  lemma TickSpends(s: Node, t: TickInput)
    requires MeterInv(s)
    ensures Spends(s, OnTick(s, t))
  {
    hide TickUpkeep, IssueAll, TickServe, Input.Plan, PickInput, TickPrune, TickRefill, MeterInv, Paid;
    var c := TickCursor(s.(now := s.now + t.dt), t.playHead);
    PruneSameMeter(c);
    var p := TickPrune(c);
    MeterFrame(s, p);
    var r := TickRefill(p);
    RefillSpends(p);
    PaidComposes(s, p, r);
    var v := TickServe(r, t.peerOrder);
    ServeSpends(r, t.peerOrder);
    PaidComposes(s, r, v);
    UpkeepSameMeter(v, t);
    var u := TickUpkeep(v, t);
    IssueSameMeter(u, PickInput(u, t.peerOrder).Plan(u.win.local, t.chance));
    MeterFrame(v, OnTick(s, t));
    PaidComposes(s, v, OnTick(s, t));
  }

  // ---- every step ----

  lemma ChatterSameMeter(s: Node, p: Peer, msg: Msg)
    ensures SameMeter(s, OnChatter(s, p, msg))
  {
    hide Penalize, Enqueue;
    PenalizeSameMeter(s, p, ProtocolAbuse);
  }

  lemma InboundSpends(s: Node, p: Peer, msg: Msg, order: seq<Peer>)
    requires MeterInv(s)
    ensures Spends(s, OnInbound(s, p, msg, order))
  {
    hide OnSegmentData, ApplyEdge, OnChatter, MeterInv, Paid;
    MeterFrame(s, s);
    match msg
    case SegmentData(q, total, offset, chunk) => SegmentDataSpends(s, p, q, total, offset, chunk, order);
    case EdgeAnnounce(q, id, sig) =>
      MeterFrame(s, See(s, q));
      ApplyEdgeSpends(See(s, q), q, id, order);
      PaidComposes(s, See(s, q), ApplyEdge(See(s, q), q, id, order));
    case _ => ChatterSameMeter(s, p, msg); MeterFrame(s, OnChatter(s, p, msg));
  }

  lemma FallbackSpends(s: Node, q: Seq, bytes: Option<Bytes>, order: seq<Peer>)
    requires MeterInv(s) && q in s.inflight
    ensures Spends(s, OnFallback(s, q, bytes, order))
  {
    hide ClearPending, DeliverVerified, MeterInv, Paid;
    var s1 := s.(inflight := s.inflight - {q});
    MeterFrame(s, s1);
    ClearSameMeter(s1, q);
    var c := ClearPending(s1, q);
    MeterFrame(s, c);
    if bytes.Some? {
      DeliverSpends(c, q, s.inflight[q], bytes.value, order);
      PaidComposes(s, c, DeliverVerified(c, q, s.inflight[q], bytes.value, order));
    }
  }

  lemma ProducedSpends(s: Node, q: Seq, id: Digest, b: Bytes, order: seq<Peer>)
    requires MeterInv(s)
    ensures Spends(s, OnProduced(s, q, id, b, order))
  {
    hide Keep, PushToSubscribers, MeterInv, Paid;
    KeepSameMeter(s, q, id, b);
    var r := Record(Keep(s, q, id, b), q, id);
    var t := if s.env.signs then See(r, q) else r;
    MeterFrame(s, t);
    PushSpends(t, q, order);
    PaidComposes(s, t, PushToSubscribers(t, q, order));
  }

  lemma StepSpends(s: Node, e: Event)
    requires MeterInv(s) && Legal(s, e) && !e.SetUploadBudget?
    ensures Spends(s, Step(s, e))
  {
    hide MeterInv, Paid, OnTick, OnInbound, ApplyEdge, OnDisconnected, OnFallback, OnProduced;
    match e
    case PeerDisconnected(p) => DisconnectSameMeter(s, p); MeterFrame(s, OnDisconnected(s, p));
    case Inbound(p, msg, order) => InboundSpends(s, p, msg, order);
    case LiveEdge(q, id, order) => ApplyEdgeSpends(s, q, id, order);
    case Produced(q, id, b, order) => ProducedSpends(s, q, id, b, order);
    case Tick(t) => TickSpends(s, t);
    case FallbackDone(q, bytes, order) => FallbackSpends(s, q, bytes, order);
    case SetUploadBudget(_) =>
    case PeerConnected(_, _) => MeterFrame(s, Step(s, e));
    case SetPublisherKey(_) => MeterFrame(s, Step(s, e));
    case SetRole(_) => MeterFrame(s, Step(s, e));
    case SetSegMs(_) => MeterFrame(s, Step(s, e));
  }

  lemma DisconnectSameMeter(s: Node, p: Peer)
    ensures SameMeter(s, OnDisconnected(s, p))
  {
    hide Total, Restrict, SlotsOf;
  }

  ghost function Linked(links: set<Peer>, targets: seq<Peer>): nat {
    if targets == [] then 0 else (if targets[0] in links then 1 else 0) + Linked(links, targets[1..])
  }

  lemma {:induction false} UnmeteredLedger(links: set<Peer>, size: nat, targets: seq<Peer>, tokens: real, sent: nat)
    ensures PushLedger(links, false, size, targets, tokens, sent) == (tokens, sent + Linked(links, targets) * size)
    decreases |targets|
  {
    if targets != [] {
      UnmeteredLedger(links, size, targets[1..], tokens, if targets[0] in links then sent + size else sent);
      ScaleStep(Linked(links, targets[1..]), size);
    }
  }

  /** What serving a queue entry costs the tick's allowance. */
  function Cost(store: Store, segBytes: nat, q: Seq): nat {
    match store.Locate(q)
    case Memory => |store.mem[q]|
    case Disk(_) => segBytes
    case Absent => 0
  }

  function Costs(store: Store, segBytes: nat, qs: seq<Seq>): nat {
    if qs == [] then 0 else Cost(store, segBytes, qs[0]) + Costs(store, segBytes, qs[1..])
  }

  lemma {:induction false} UnmeteredQueue(store: Store, linked: bool, segBytes: nat, served: nat, v: Serving)
    ensures var r := ServeQueue(store, linked, false, segBytes, served, v);
            && r.tokens == v.tokens && |r.queue| <= |v.queue| && r.queue == v.queue[|v.queue| - |r.queue|..]
            && (r.queue == []
                || served + Costs(store, segBytes, v.queue[..|v.queue| - |r.queue|]) >= SERVE_BYTES_PER_TICK)
    decreases |v.queue|
  {
    if served < SERVE_BYTES_PER_TICK && v.queue != [] {
      var q, rest := v.queue[0], v.queue[1..];
      var c := Cost(store, segBytes, q);
      var sent := if store.Locate(q).Memory? && linked then v.sent + c else v.sent;
      var next := Serving(rest, v.tokens, sent);
      UnmeteredQueue(store, linked, segBytes, served + c, next);
      var r := ServeQueue(store, linked, false, segBytes, served, v);
      assert r == ServeQueue(store, linked, false, segBytes, served + c, next);
      var n := |v.queue| - |r.queue|;
      assert v.queue[..n][0] == q && v.queue[..n][1..] == rest[..n - 1];
      assert v.queue[n..] == rest[n - 1..];
    }
  }

  /** A budget of zero does not stop uploads, it takes the meter away: a push reaches every linked target,
      and the paced drain of an unchoked peer stops only at an empty queue or the tick's allowance. */
  lemma ZeroBudgetIsUnmetered(s: Node, q: Seq, order: seq<Peer>, p: Peer)
    requires s.cfg.budget == 0
    ensures s.subscribers != {} && s.win.store.Get(q).Some? ==>
              PushToSubscribers(s, q, order).hist.sent
              == s.hist.sent + Linked(s.links, Targets(s, q, order)) * |s.win.store.Get(q).value|
    ensures PushToSubscribers(s, q, order).meter == s.meter && ServePeer(s, p).meter == s.meter
    ensures p in s.peers && !s.peers[p].choked ==>
              var left, all := ServePeer(s, p).peers[p].queue, s.peers[p].queue;
              && |left| <= |all| && left == all[|all| - |left|..]
              && (left == [] || Costs(s.win.store, s.env.segBytes, all[..|all| - |left|]) >= SERVE_BYTES_PER_TICK)
  {
    hide Targets, Store.Get, PushLedger, ServeQueue, Costs, Linked;
    if s.win.store.Get(q).Some? {
      UnmeteredLedger(s.links, |s.win.store.Get(q).value|, Targets(s, q, order), s.meter.tokens, s.hist.sent);
    }
    if p in s.peers {
      UnmeteredQueue(s.win.store, p in s.links, s.env.segBytes, 0,
                     Serving(s.peers[p].queue, s.meter.tokens, s.hist.sent));
    }
  }

  // ---- budgets that change ----

  /** `Paid` without a constant budget: one step spends what the bucket loses plus what the old rate earned. */
  ghost predicate PaidAtRate(s: Node, t: Node) {
    && t.env.segBytes == s.env.segBytes && s.meter.tokenMs <= t.meter.tokenMs && s.hist.sent <= t.hist.sent
    && (t.hist.sent - s.hist.sent) as real
       <= s.meter.tokens - t.meter.tokens + Earned(s.cfg.budget, t.meter.tokenMs - s.meter.tokenMs)
  }

  lemma StepSpendsAtRate(s: Node, e: Event)
    requires MeterInv(s) && Legal(s, e) && (e.SetUploadBudget? ==> e.bps > 0)
    ensures MeterInv(Step(s, e)) && PaidAtRate(s, Step(s, e))
  {
    if e.SetUploadBudget? {
      assert Earned(s.cfg.budget, 0) == 0.0;
    } else {
      hide Step, Legal;
      StepSpends(s, e);
    }
  }
}
