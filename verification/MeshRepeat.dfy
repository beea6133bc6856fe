/** Exactly when a segment is played twice: the law of single delivery itself, past the point where the
    delivery invariant is lost. */
module MeshRepeat {
  import opened Common
  import opened BufferMaps
  import opened Reassembly
  import opened SegmentStores
  import opened Picker
  import opened Wire
  import opened MeshState
  import opened MeshFlight
  import opened MeshDelivery

  /** What survives even a repeated delivery: whatever was played is held or below the window, whatever is
      held was played, nothing played is asked for, and a played segment is parked only below the window. */
  ghost predicate Held(s: Node) {
    && (forall q :: q in Delivered(s) ==> s.win.local.Has(q) || q < s.win.local.base)
    && (forall q: Seq :: s.win.local.Has(q) ==> q in Delivered(s))
    && s.flight.pending.Keys !! Delivered(s)
    && (forall q :: q in s.park.parked && q in Delivered(s) ==> q < s.win.local.base)
  }

  /** Bytes parked for a played segment verify under `id`. */
  ghost predicate StaleCopy(s: Node, q: Seq, id: Digest) {
    q in s.park.parked && q in Delivered(s) && s.env.crypto.hash(s.park.parked[q].raw) == id
  }

  /** The event plays a segment again: a floor result below the floor for a played segment, or an edge that
      verifies a parked copy of one. */
  ghost predicate Repeats(s: Node, e: Event) {
    match e
    case FallbackDone(q, bytes, _) =>
      && q in s.inflight && bytes.Some? && s.env.crypto.hash(bytes.value) == s.inflight[q]
      && q < s.win.floor && q in Delivered(s)
    case LiveEdge(q, id, _) => StaleCopy(s, q, id)
    case Inbound(p, EdgeAnnounce(q, id, sig), _) =>
      && !(p in s.peers && s.peers[p].banned)
      && JudgeEdge(s.env.crypto, s.env.stream, s.edge.key, s.edge.edgeSeen, q, id, sig).News? && StaleCopy(s, q, id)
    case _ => false
  }

  /** At most one segment was played, and it was an old one exactly if `again`. */
  ghost predicate Outcome(s: Node, t: Node, again: bool) {
    || (t.hist.sink == s.hist.sink && !again)
    || exists q, b :: t.hist.sink == s.hist.sink + [(q, b)] && (again <==> q in Delivered(s))
  }

  lemma Quiet(s: Node, t: Node)
    requires Held(s) && NoMoreWanted(s, t)
    ensures Held(t) && Outcome(s, t, false)
  {}

  lemma DeliverHeld(s: Node, q: Seq, id: Digest, b: Bytes, order: seq<Peer>)
    requires Held(s) && q !in s.flight.pending && (q in s.park.parked ==> q < s.win.local.base)
    ensures var t := DeliverVerified(s, q, id, b, order); Held(t) && t.hist.sink == s.hist.sink + [(q, b)]
  {
    hide DeliverVerified, BufMap.Set, Seqs;
    DeliverEffect(s, q, id, b, order);
    LocalSetHas(s.win.local, q);
    SinkAppend(s.hist.sink, q, b);
  }

  lemma AcceptHeld(s: Node, p: Peer, q: Seq, id: Digest, b: Bytes, order: seq<Peer>)
    requires Held(s) && (q in s.park.parked ==> q < s.win.local.base)
    ensures var t := AcceptSegment(s, p, q, id, b, order); Held(t) && t.hist.sink == s.hist.sink + [(q, b)]
  {
    hide Held, DeliverVerified, ClearPending;
    ClearWanted(s, q);
    var c := ClearPending(s, q);
    Quiet(s, c);
    var d := Credit(c, p, AskedFor(s, q), |b|);
    Quiet(c, d);
    DeliverHeld(d, q, id, b, order);
  }

  lemma ApplyHeld(s: Node, q: Seq, id: Digest, order: seq<Peer>)
    requires Held(s)
    ensures var t := ApplyEdge(s, q, id, order); Held(t) && Outcome(s, t, StaleCopy(s, q, id))
  {
    hide AcceptSegment, Penalize, Seqs;
    var r := Record(s, q, id);
    assert Held(r) && Delivered(r) == Delivered(s);
    if q in r.park.parked {
      var u, p, raw := Unpark(r, q), r.park.parked[q].peer, r.park.parked[q].raw;
      Quiet(r, u);
      PenalizeWanted(u, p, HashFail);
      Quiet(u, Penalize(u, p, HashFail));
      AcceptHeld(u, p, q, id, raw, order);
    }
  }

  lemma CompletedHeld(s: Node, p: Peer, q: Seq, r: Reasm, order: seq<Peer>)
    requires Held(s) && ParkedUnknown(s) && q !in Delivered(s)
    ensures Held(Completed(s, p, q, r, order)) && Outcome(s, Completed(s, p, q, r, order), false)
  {
    hide AcceptSegment, Penalize, ClearPending, Held, Seqs, Reasm.Complete, Reasm.Assembled;
    ClearWanted(s, q);
    var c := ClearPending(s, q);
    Quiet(s, c);
    if q in s.edge.ids { AcceptHeld(s, p, q, s.edge.ids[q], r.Assembled(), order); }
    PenalizeWanted(c, p, HashFail);
    Quiet(c, Penalize(c, p, HashFail));
    ParkHeld(c, p, q, r.Assembled());
  }

  lemma ParkHeld(s: Node, p: Peer, q: Seq, raw: Bytes)
    requires Held(s) && q !in Delivered(s)
    ensures Held(Park(s, p, q, raw)) && Park(s, p, q, raw).hist == s.hist
  {
    hide Seqs;
  }

  /** The gate lets nothing through that was played, pruned or not. */
  lemma GateIsNew(s: Node, p: Peer, q: Seq)
    requires Held(s) && WindowInv(s) && Connected(s)
    requires !s.win.local.Has(q) && (Asked(s, p, q) || InPushWindow(s, q))
    ensures q !in Delivered(s)
  {
    hide Seqs;
  }

  lemma SegmentDataHeld(s: Node, p: Peer, q: Seq, total: nat, offset: nat, chunk: Bytes, order: seq<Peer>)
    requires Held(s) && WindowInv(s) && ParkedUnknown(s) && Connected(s)
    ensures var t := OnSegmentData(s, p, q, total, offset, chunk, order); Held(t) && Outcome(s, t, false)
  {
    hide Completed, Penalize, WindowInv, Held, Connected, SlotRefused, Spray, Total, Restrict, Seqs;
    PenalizeWanted(s, p, ProtocolAbuse);
    Quiet(s, Penalize(s, p, ProtocolAbuse));
    Quiet(s, s);
    if !s.win.local.Has(q) && (Asked(s, p, q) || InPushWindow(s, q)) {
      GateIsNew(s, p, q);
      var s1 := BufferChunk(s, (p, q), total, offset, chunk);
      Quiet(s, s1);
      var s2 := DropSlots(s1, {(p, q)});
      Quiet(s1, s2);
      CompletedHeld(s2, p, q, s1.asm.reasm[(p, q)].r, order);
    }
  }

  lemma PruneHeld(s: Node)
    requires Held(s) && WindowInv(s)
    ensures Held(TickPrune(s)) && TickPrune(s).hist == s.hist && WindowInv(TickPrune(s))
  {
    hide Store.PruneBelow, Seqs, BufMap.Highest;
  }

  lemma IssueOneHeld(s: Node, r: Request)
    requires Held(s) && r.seq_ !in Delivered(s)
    ensures Held(Issue(s, r)) && Issue(s, r).hist == s.hist
  {
    hide Seqs;
  }

  lemma {:induction false} IssueHeld(s: Node, rs: seq<Request>)
    requires Held(s) && forall r :: r in rs ==> r.seq_ !in Delivered(s)
    ensures Held(IssueAll(s, rs)) && IssueAll(s, rs).hist == s.hist
    decreases |rs|
  {
    hide Held, Issue, Seqs;
    if rs != [] {
      IssueHeld(s, rs[..|rs| - 1]);
      IssueOneHeld(IssueAll(s, rs[..|rs| - 1]), rs[|rs| - 1]);
    }
  }

  lemma PlanIsNew(s: Node, order: seq<Peer>, c: Chance)
    requires Held(s) && WindowInv(s)
    ensures forall r :: r in PickInput(s, order).Plan(s.win.local, c) ==> r.seq_ !in Delivered(s)
  {
    hide Input.Plan, ViewsOf, Seqs;
    PlanAsksOnlyWhatItMay(PickInput(s, order), s.win.local, c);
  }

  lemma TickHeld(s: Node, t: TickInput)
    requires Held(s) && WindowInv(s) && t.playHead <= U64_MAX
    ensures Held(OnTick(s, t)) && Outcome(s, OnTick(s, t), false)
  {
    hide TickUpkeep, IssueAll, TickServe, Input.Plan, PickInput, TickPrune, Seqs, Held;
    var c := TickCursor(s.(now := s.now + t.dt), t.playHead);
    CursorHeld(s, c);
    hide TickCursor;
    PruneHeld(c);
    var p := TickPrune(c);
    var r := TickRefill(p);
    Quiet(p, r);
    ServeWanted(r, t.peerOrder);
    var v := TickServe(r, t.peerOrder);
    Quiet(r, v);
    UpkeepWanted(v, t);
    var u := TickUpkeep(v, t);
    Quiet(v, u);
    PlanIsNew(u, t.peerOrder, t.chance);
    IssueHeld(u, PickInput(u, t.peerOrder).Plan(u.win.local, t.chance));
  }

  lemma CursorHeld(s: Node, c: Node)
    requires Held(s) && c == s.(now := c.now, win := s.win.(play := c.win.play))
    ensures Held(c)
  {
    hide Seqs;
  }

  lemma FallbackHeld(s: Node, q: Seq, bytes: Option<Bytes>, order: seq<Peer>)
    requires Held(s) && WindowInv(s) && ParkedUnknown(s) && FloorKnown(s) && q in s.inflight
    ensures var t := OnFallback(s, q, bytes, order);
            Held(t) && Outcome(s, t, Repeats(s, FallbackDone(q, bytes, order)))
  {
    hide ClearPending, DeliverVerified, Seqs;
    var s1 := s.(inflight := s.inflight - {q});
    Quiet(s, s1);
    ClearWanted(s1, q);
    Quiet(s1, ClearPending(s1, q));
    if bytes.Some? && !s.win.local.Has(q) {
      DeliverHeld(ClearPending(s1, q), q, s.inflight[q], bytes.value, order);
    }
  }

  lemma InboundHeld(s: Node, p: Peer, msg: Msg, order: seq<Peer>)
    requires Held(s) && WindowInv(s) && ParkedUnknown(s) && Connected(s)
    ensures var t := OnInbound(s, p, msg, order); Held(t) && Outcome(s, t, Repeats(s, Inbound(p, msg, order)))
  {
    hide OnSegmentData, ApplyEdge, OnChatter, Held, Connected, WindowInv, ParkedUnknown, Seqs, JudgeEdge;
    Quiet(s, s);
    match msg
    case SegmentData(q, total, offset, chunk) => SegmentDataHeld(s, p, q, total, offset, chunk, order);
    case EdgeAnnounce(q, id, sig) =>
      Quiet(s, See(s, q));
      ApplyHeld(See(s, q), q, id, order);
    case _ => ChatterWanted(s, p, msg); Quiet(s, OnChatter(s, p, msg));
  }

  lemma StepHeld(s: Node, e: Event)
    requires Held(s) && WindowInv(s) && ParkedUnknown(s) && FloorKnown(s) && Connected(s) && Legal(s, e) && !e.Produced?
    ensures Held(Step(s, e)) && Outcome(s, Step(s, e), Repeats(s, e))
  {
    hide OnTick, OnInbound, ApplyEdge, OnDisconnected, OnFallback, Held, Connected, WindowInv, ParkedUnknown,
        FloorKnown,
         Delivered, Enumerates;
    match e
    case PeerDisconnected(p) => DisconnectWanted(s, p); Quiet(s, OnDisconnected(s, p));
    case Inbound(p, msg, order) => InboundHeld(s, p, msg, order);
    case LiveEdge(q, id, order) => ApplyHeld(s, q, id, order);
    case Tick(t) => TickHeld(s, t);
    case Produced(_, _, _, _) =>
    case FallbackDone(q, bytes, order) => FallbackHeld(s, q, bytes, order);
    case PeerConnected(_, _) => Quiet(s, Step(s, e));
    case SetPublisherKey(_) => Quiet(s, Step(s, e));
    case SetRole(_) => Quiet(s, Step(s, e));
    case SetUploadBudget(_) => Quiet(s, Step(s, e));
    case SetSegMs(_) => Quiet(s, Step(s, e));
  }

  lemma OutcomeDecides(s: Node, t: Node, again: bool)
    requires Outcome(s, t, again)
    ensures Distinct(t.hist.sink) <==> Distinct(s.hist.sink) && !again
  {
    hide Distinct, Seqs;
    if t.hist.sink != s.hist.sink {
      var q, b :| t.hist.sink == s.hist.sink + [(q, b)] && (again <==> q in Delivered(s));
      SinkAppend(s.hist.sink, q, b);
      if again { SinkRepeats(s.hist.sink, q, b); }
      PrefixDistinct(s.hist.sink, q, b);
    }
  }

  lemma PrefixDistinct(sink: seq<(Seq, Bytes)>, q: Seq, b: Bytes)
    ensures Distinct(sink + [(q, b)]) ==> Distinct(sink)
  {
    var t := sink + [(q, b)];
    assert forall i :: 0 <= i < |sink| ==> t[i] == sink[i];
  }
}
