/** Authenticity over every run: whatever is stored or played hashes to an id that was
    recorded for that segment, and ids come only from trusted sources. */
module MeshAuthority {
  import opened Common
  import opened BufferMaps
  import opened Reassembly
  import opened SegmentStores
  import opened Picker
  import opened Wire
  import opened MeshState
  import opened MeshDelivery

  ghost predicate Recorded(s: Node, m: map<Seq, Digest>) { forall q :: q in m ==> (q, m[q]) in s.hist.recorded }

  ghost predicate SinkAuthentic(s: Node) {
    forall i :: 0 <= i < |s.hist.sink| ==> (s.hist.sink[i].0, s.env.crypto.hash(s.hist.sink[i].1)) in s.hist.recorded
  }

  ghost predicate AuthInv(s: Node) {
    && Recorded(s, s.edge.ids) && Recorded(s, s.inflight) && Recorded(s, s.win.store.index)
    && SinkAuthentic(s) && Addressed(s.win.store, s.env.crypto.hash) && FloorKnown(s)
  }

  /** The ids an event vouches for: the chain edge, our own segmenter, or a signature by the publisher. */
  ghost function Granted(s: Node, e: Event): set<(Seq, Digest)> {
    match e
    case LiveEdge(q, id, _) => {(q, id)}
    case Produced(q, id, _, _) => {(q, id)}
    case Inbound(_, EdgeAnnounce(q, id, sig), _) =>
      if s.edge.key.Some? && s.env.crypto.verify(s.edge.key.value, EdgePayload(s.env.stream, q, id), sig)
      then {(q, id)} else {}
    case _ => {}
  }

  ghost predicate SubMap(a: map<Seq, Digest>, b: map<Seq, Digest>) { forall q :: q in a ==> q in b && a[q] == b[q] }

  /** `t` holds, plays and vouches for nothing that `s` did not. */
  ghost predicate NothingNew(s: Node, t: Node) {
    && t.env == s.env && t.hist.sink == s.hist.sink && t.hist.recorded == s.hist.recorded
    && t.win.store == s.win.store && t.win.floor == s.win.floor && t.edge.ids == s.edge.ids
       && SubMap(t.inflight, s.inflight)
  }

  lemma AuthFrame(s: Node, t: Node)
    requires AuthInv(s) && NothingNew(s, t)
    ensures AuthInv(t)
  {}

  lemma ClearNothing(s: Node, q: Seq)
    ensures NothingNew(s, ClearPending(s, q))
  {}

  lemma PenalizeNothing(s: Node, p: Peer, why: Penalty)
    ensures NothingNew(s, Penalize(s, p, why))
  {}

  /** Delivery is authentic when the bytes hash to a recorded id. */
  lemma DeliverAuth(s: Node, q: Seq, id: Digest, b: Bytes, order: seq<Peer>)
    requires AuthInv(s) && s.env.crypto.hash(b) == id && (q, id) in s.hist.recorded
    ensures AuthInv(DeliverVerified(s, q, id, b, order)) && DeliverVerified(s, q, id, b, order).env == s.env
    ensures DeliverVerified(s, q, id, b, order).hist.recorded == s.hist.recorded
  {
    hide Store.Insert, Store.Get, PushLedger, Targets, BufMap.Set;
    InsertAddressed(s.win.store, s.env.crypto.hash, q, id, b);
  }

  lemma AcceptAuth(s: Node, p: Peer, q: Seq, id: Digest, b: Bytes, order: seq<Peer>)
    requires AuthInv(s) && s.env.crypto.hash(b) == id && (q, id) in s.hist.recorded
    ensures AuthInv(AcceptSegment(s, p, q, id, b, order)) && AcceptSegment(s, p, q, id, b, order).env == s.env
    ensures AcceptSegment(s, p, q, id, b, order).hist.recorded == s.hist.recorded
  {
    hide AuthInv, DeliverVerified, ClearPending;
    ClearNothing(s, q);
    var c := ClearPending(s, q);
    var d := Credit(c, p, AskedFor(s, q), |b|);
    AuthFrame(s, d);
    DeliverAuth(d, q, id, b, order);
  }

  lemma ApplyEdgeAuth(s: Node, q: Seq, id: Digest, order: seq<Peer>)
    requires AuthInv(s)
    ensures AuthInv(ApplyEdge(s, q, id, order)) && ApplyEdge(s, q, id, order).env == s.env
    ensures ApplyEdge(s, q, id, order).hist.recorded == s.hist.recorded + {(q, id)}
  {
    hide AcceptSegment, Penalize, Addressed;
    var r := Record(s, q, id);
    assert AuthInv(r);
    if q in r.park.parked {
      var u, p, raw := Unpark(r, q), r.park.parked[q].peer, r.park.parked[q].raw;
      AuthFrame(r, u);
      PenalizeNothing(u, p, HashFail);
      AuthFrame(u, Penalize(u, p, HashFail));
      if s.env.crypto.hash(raw) == id { AcceptAuth(u, p, q, id, raw, order); }
    }
  }

  lemma CompletedAuth(s: Node, p: Peer, q: Seq, r: Reasm, order: seq<Peer>)
    requires AuthInv(s)
    ensures AuthInv(Completed(s, p, q, r, order)) && Completed(s, p, q, r, order).env == s.env
    ensures Completed(s, p, q, r, order).hist.recorded == s.hist.recorded
  {
    hide AcceptSegment, Penalize, ClearPending, Addressed, SinkAuthentic;
    ClearNothing(s, q);
    var c := ClearPending(s, q);
    AuthFrame(s, c);
    PenalizeNothing(c, p, HashFail);
    AuthFrame(c, Penalize(c, p, HashFail));
    AuthFrame(c, Park(c, p, q, r.Assembled()));
    if q in s.edge.ids && s.env.crypto.hash(r.Assembled()) == s.edge.ids[q] {
      AcceptAuth(s, p, q, s.edge.ids[q], r.Assembled(), order);
    }
  }

  lemma SegmentDataAuth(s: Node, p: Peer, q: Seq, total: nat, offset: nat, chunk: Bytes, order: seq<Peer>)
    requires AuthInv(s)
    ensures AuthInv(OnSegmentData(s, p, q, total, offset, chunk, order))
            && OnSegmentData(s, p, q, total, offset, chunk, order).env == s.env
    ensures OnSegmentData(s, p, q, total, offset, chunk, order).hist.recorded == s.hist.recorded
  {
    hide AuthInv, Completed, Penalize, SlotRefused, Spray, Asked, InPushWindow, Total, Restrict;
    PenalizeNothing(s, p, ProtocolAbuse);
    AuthFrame(s, Penalize(s, p, ProtocolAbuse));
    var s1 := BufferChunk(s, (p, q), total, offset, chunk);
    AuthFrame(s, s1);
    var s2 := DropSlots(s1, {(p, q)});
    AuthFrame(s1, s2);
    CompletedAuth(s2, p, q, s1.asm.reasm[(p, q)].r, order);
  }

  lemma PruneAuth(s: Node)
    requires AuthInv(s)
    ensures AuthInv(TickPrune(s)) && TickPrune(s).env == s.env && TickPrune(s).hist == s.hist
  {
    PruneAddressed(s.win.store, s.env.crypto.hash, PruneFloor(s));
  }

  lemma {:induction false} ServeNothing(s: Node, order: seq<Peer>)
    ensures NothingNew(s, TickServe(s, order))
    decreases |order|
  {
    hide ServeQueue;
    if order != [] { ServeNothing(s, order[..|order| - 1]); }
  }

  lemma {:induction false} ExpireNothing(s: Node, order: seq<Seq>)
    ensures NothingNew(s, TickExpire(s, order))
    decreases |order|
  {
    hide ClearPending, Penalize, Total, Restrict;
    if order != [] {
      ExpireNothing(s, order[..|order| - 1]);
      var t, q := TickExpire(s, order[..|order| - 1]), order[|order| - 1];
      if Stale(t, q) {
        ClearNothing(t, q);
        var p := t.flight.pending[q].peer;
        PenalizeNothing(DropSlots(ClearPending(t, q), {(p, q)}), p, Timeout);
      }
    }
  }

  lemma UpkeepNothing(s: Node, t: TickInput)
    ensures NothingNew(s, TickUpkeep(s, t))
  {
    hide TickExpire, Total, Restrict;
    ExpireNothing(s, t.askOrder);
  }

  lemma {:induction false} IssueAuth(s: Node, rs: seq<Request>)
    requires AuthInv(s)
    ensures AuthInv(IssueAll(s, rs)) && IssueAll(s, rs).env == s.env && IssueAll(s, rs).hist == s.hist
    decreases |rs|
  {
    hide Addressed, SinkAuthentic;
    if rs != [] { IssueAuth(s, rs[..|rs| - 1]); IssueOneAuth(IssueAll(s, rs[..|rs| - 1]), rs[|rs| - 1]); }
  }

  lemma IssueOneAuth(s: Node, r: Request)
    requires AuthInv(s)
    ensures AuthInv(Issue(s, r)) && Issue(s, r).env == s.env && Issue(s, r).hist == s.hist
  {}

  lemma TickAuth(s: Node, t: TickInput)
    requires AuthInv(s)
    ensures AuthInv(OnTick(s, t)) && OnTick(s, t).env == s.env && OnTick(s, t).hist.recorded == s.hist.recorded
  {
    hide AuthInv, TickUpkeep, IssueAll, TickServe, Input.Plan, PickInput, TickPrune;
    var c := TickCursor(s.(now := s.now + t.dt), t.playHead);
    AuthFrame(s, c);
    PruneAuth(c);
    var r := TickRefill(TickPrune(c));
    AuthFrame(TickPrune(c), r);
    ServeNothing(r, t.peerOrder);
    var v := TickServe(r, t.peerOrder);
    AuthFrame(r, v);
    UpkeepNothing(v, t);
    AuthFrame(v, TickUpkeep(v, t));
    IssueAuth(TickUpkeep(v, t), PickInput(TickUpkeep(v, t), t.peerOrder).Plan(TickUpkeep(v, t).win.local, t.chance));
  }

  lemma ChatterNothing(s: Node, p: Peer, msg: Msg)
    ensures NothingNew(s, OnChatter(s, p, msg))
  {
    hide Penalize, Enqueue;
    PenalizeNothing(s, p, ProtocolAbuse);
  }

  lemma InboundAuth(s: Node, p: Peer, msg: Msg, order: seq<Peer>)
    requires AuthInv(s)
    ensures AuthInv(OnInbound(s, p, msg, order)) && OnInbound(s, p, msg, order).env == s.env
    ensures s.hist.recorded <= OnInbound(s, p, msg, order).hist.recorded
            <= s.hist.recorded + Granted(s, Inbound(p, msg, order))
  {
    hide AuthInv, OnSegmentData, ApplyEdge, OnChatter;
    match msg
    case SegmentData(q, total, offset, chunk) => SegmentDataAuth(s, p, q, total, offset, chunk, order);
    case EdgeAnnounce(q, id, sig) =>
      AuthFrame(s, See(s, q));
      ApplyEdgeAuth(See(s, q), q, id, order);
    case _ => ChatterNothing(s, p, msg); AuthFrame(s, OnChatter(s, p, msg));
  }

  lemma FallbackAuth(s: Node, q: Seq, bytes: Option<Bytes>, order: seq<Peer>)
    requires AuthInv(s) && q in s.inflight
    ensures AuthInv(OnFallback(s, q, bytes, order)) && OnFallback(s, q, bytes, order).env == s.env
    ensures OnFallback(s, q, bytes, order).hist.recorded == s.hist.recorded
  {
    hide ClearPending, DeliverVerified, Addressed, SinkAuthentic;
    var s1 := s.(inflight := s.inflight - {q});
    AuthFrame(s, s1);
    ClearNothing(s1, q);
    AuthFrame(s1, ClearPending(s1, q));
    if bytes.Some? && s.env.crypto.hash(bytes.value) == s.inflight[q] {
      DeliverAuth(ClearPending(s1, q), q, s.inflight[q], bytes.value, order);
    }
  }

  lemma ProducedAuth(s: Node, q: Seq, id: Digest, b: Bytes, order: seq<Peer>)
    requires AuthInv(s) && s.env.crypto.hash(b) == id
    ensures AuthInv(OnProduced(s, q, id, b, order)) && OnProduced(s, q, id, b, order).env == s.env
    ensures OnProduced(s, q, id, b, order).hist.recorded == s.hist.recorded + {(q, id)}
  {
    hide Store.Insert, PushLedger, Targets, Store.Get, BufMap.Set;
    InsertAddressed(s.win.store, s.env.crypto.hash, q, id, b);
  }

  /** The local segmenter labels its own segments correctly. */
  ghost predicate TrueLabels(s: Node, e: Event) { e.Produced? ==> s.env.crypto.hash(e.b) == e.id }

  lemma StepAuth(s: Node, e: Event)
    requires AuthInv(s) && Legal(s, e) && TrueLabels(s, e)
    ensures AuthInv(Step(s, e)) && Step(s, e).env == s.env
    ensures s.hist.recorded <= Step(s, e).hist.recorded <= s.hist.recorded + Granted(s, e)
  {
    hide AuthInv, OnTick, OnInbound, ApplyEdge, OnDisconnected, OnFallback, OnProduced;
    match e
    case PeerDisconnected(p) => DisconnectNothing(s, p); AuthFrame(s, OnDisconnected(s, p));
    case Inbound(p, msg, order) => InboundAuth(s, p, msg, order);
    case LiveEdge(q, id, order) => ApplyEdgeAuth(s, q, id, order);
    case Produced(q, id, b, order) => ProducedAuth(s, q, id, b, order);
    case Tick(t) => TickAuth(s, t);
    case FallbackDone(q, bytes, order) => FallbackAuth(s, q, bytes, order);
    case _ => AuthFrame(s, Step(s, e));
  }

  lemma DisconnectNothing(s: Node, p: Peer)
    ensures NothingNew(s, OnDisconnected(s, p))
  {
    hide Total, Restrict, SlotsOf;
  }

  // ---- which ids are recorded, whatever the labels ----

  ghost predicate SameRecord(s: Node, t: Node) { t.env == s.env && t.hist.recorded == s.hist.recorded }

  lemma DeliverRecord(s: Node, q: Seq, id: Digest, b: Bytes, order: seq<Peer>)
    ensures SameRecord(s, DeliverVerified(s, q, id, b, order))
  {
    hide Store.Insert, Store.Get, PushLedger, Targets, BufMap.Set, BufMap.Has;
  }

  lemma AcceptRecord(s: Node, p: Peer, q: Seq, id: Digest, b: Bytes, order: seq<Peer>)
    ensures SameRecord(s, AcceptSegment(s, p, q, id, b, order))
  {
    hide DeliverVerified, ClearPending;
    ClearNothing(s, q);
    DeliverRecord(Credit(ClearPending(s, q), p, AskedFor(s, q), |b|), q, id, b, order);
  }

  lemma ApplyRecord(s: Node, q: Seq, id: Digest, order: seq<Peer>)
    ensures SameRecord(Record(s, q, id), ApplyEdge(s, q, id, order))
  {
    hide AcceptSegment, Penalize, BufMap.Has;
    var r := Record(s, q, id);
    if q in r.park.parked {
      var u, p, raw := Unpark(r, q), r.park.parked[q].peer, r.park.parked[q].raw;
      PenalizeNothing(u, p, HashFail);
      AcceptRecord(u, p, q, id, raw, order);
    }
  }

  lemma SegmentDataRecord(s: Node, p: Peer, q: Seq, total: nat, offset: nat, chunk: Bytes, order: seq<Peer>)
    ensures SameRecord(s, OnSegmentData(s, p, q, total, offset, chunk, order))
  {
    hide Completed, Penalize, SlotRefused, Spray, Asked, InPushWindow, Total, Restrict, BufMap.Has;
    PenalizeNothing(s, p, ProtocolAbuse);
    var s1 := BufferChunk(s, (p, q), total, offset, chunk);
    CompletedRecord(DropSlots(s1, {(p, q)}), p, q, s1.asm.reasm[(p, q)].r, order);
  }

  lemma CompletedRecord(s: Node, p: Peer, q: Seq, r: Reasm, order: seq<Peer>)
    ensures SameRecord(s, Completed(s, p, q, r, order))
  {
    hide AcceptSegment, Penalize, ClearPending, Reasm.Complete, Reasm.Assembled;
    ClearNothing(s, q);
    PenalizeNothing(ClearPending(s, q), p, HashFail);
    if q in s.edge.ids { AcceptRecord(s, p, q, s.edge.ids[q], r.Assembled(), order); }
  }

  lemma {:induction false} IssueRecord(s: Node, rs: seq<Request>)
    ensures SameRecord(s, IssueAll(s, rs))
    decreases |rs|
  {
    if rs != [] { IssueRecord(s, rs[..|rs| - 1]); }
  }

  lemma TickRecord(s: Node, t: TickInput)
    ensures SameRecord(s, OnTick(s, t))
  {
    hide TickUpkeep, IssueAll, TickServe, Input.Plan, PickInput, Store.PruneBelow, BufMap.PruneBelow, BufMap.Highest;
    var r := TickRefill(TickPrune(TickCursor(s.(now := s.now + t.dt), t.playHead)));
    assert SameRecord(s, r);
    hide TickRefill, TickPrune, TickCursor;
    ServeNothing(r, t.peerOrder);
    UpkeepNothing(TickServe(r, t.peerOrder), t);
    var u := TickUpkeep(TickServe(r, t.peerOrder), t);
    IssueRecord(u, PickInput(u, t.peerOrder).Plan(u.win.local, t.chance));
  }

  lemma FallbackRecord(s: Node, q: Seq, bytes: Option<Bytes>, order: seq<Peer>)
    requires q in s.inflight
    ensures SameRecord(s, OnFallback(s, q, bytes, order))
  {
    hide ClearPending, DeliverVerified, BufMap.Has;
    var s1 := s.(inflight := s.inflight - {q});
    ClearNothing(s1, q);
    if bytes.Some? { DeliverRecord(ClearPending(s1, q), q, s.inflight[q], bytes.value, order); }
  }

  lemma ProducedRecord(s: Node, q: Seq, id: Digest, b: Bytes, order: seq<Peer>)
    ensures SameRecord(Record(s, q, id), OnProduced(s, q, id, b, order))
  {
    hide Store.Insert, PushLedger, Targets, Store.Get, BufMap.Set, BufMap.Has;
  }

  /** Every event records at most the ids it vouches for, and forgets none. */
  lemma StepRecords(s: Node, e: Event)
    requires Legal(s, e)
    ensures Step(s, e).env == s.env
    ensures s.hist.recorded <= Step(s, e).hist.recorded <= s.hist.recorded + Granted(s, e)
  {
    hide OnTick, OnInbound, ApplyEdge, OnDisconnected, OnFallback, OnProduced, Enumerates;
    match e
    case PeerDisconnected(p) => DisconnectNothing(s, p);
    case Inbound(p, msg, order) => InboundRecords(s, p, msg, order);
    case LiveEdge(q, id, order) => ApplyRecord(s, q, id, order);
    case Produced(q, id, b, order) => ProducedRecord(s, q, id, b, order);
    case Tick(t) => TickRecord(s, t);
    case FallbackDone(q, bytes, order) => FallbackRecord(s, q, bytes, order);
    case _ =>
  }

  lemma InboundRecords(s: Node, p: Peer, msg: Msg, order: seq<Peer>)
    ensures var t := OnInbound(s, p, msg, order);
            t.env == s.env && s.hist.recorded <= t.hist.recorded <= s.hist.recorded + Granted(s, Inbound(p, msg, order))
  {
    hide OnSegmentData, ApplyEdge, OnChatter;
    match msg
    case SegmentData(q, total, offset, chunk) => SegmentDataRecord(s, p, q, total, offset, chunk, order);
    case EdgeAnnounce(q, id, sig) => ApplyRecord(See(s, q), q, id, order);
    case _ => ChatterNothing(s, p, msg);
  }
}
