/** The announced cap on reassembly bytes: when it holds, and exactly which chunk carries the counter
    past it. Admission weighs a new slot's announced size against the bytes already buffered, not
    against what open slots may still receive. */
module MeshCap {
  import opened Common
  import opened BufferMaps
  import opened Reassembly
  import opened MeshState
  import opened MeshBuffers

  ghost function Announced(reasm: map<(Peer, Seq), Slot>): map<(Peer, Seq), nat> {
    map k | k in reasm :: reasm[k].r.total
  }

  /** What the open slots announced, together. */
  ghost function Reserved(s: Node): nat { Total(Announced(s.asm.reasm)) }

  /** The counter never exceeds what the open slots announced. */
  lemma CountedWithinReserved(s: Node)
    requires BufferInv(s)
    ensures s.asm.reasmBytes <= Reserved(s)
  {
    hide Total, ParkInv;
    assert Buffered(s.asm.reasm).Keys == Announced(s.asm.reasm).Keys;
    forall k | k in Buffered(s.asm.reasm) ensures Buffered(s.asm.reasm)[k] <= Announced(s.asm.reasm)[k] {
      assert SlotOk(s.asm.reasm[k], s.now);
    }
    TotalMonotone(Buffered(s.asm.reasm), Announced(s.asm.reasm));
  }

  lemma FewerBytes(s: Node, t: Node)
    requires BufferInv(s) && BufferInv(t) && Fewer(s, t)
    ensures t.asm.reasmBytes <= s.asm.reasmBytes
  {
    hide Total, ParkInv, SlotOk;
    var m := Buffered(s.asm.reasm);
    assert Restrict(m, t.asm.reasm.Keys) == Buffered(t.asm.reasm);
    TotalSplit(m, t.asm.reasm.Keys);
  }

  /** The event brings a chunk that passes the admission gate. */
  ghost predicate Admitted(s: Node, e: Event) {
    && e.Inbound? && e.msg.SegmentData? && !(e.peer in s.peers && s.peers[e.peer].banned)
    && !s.win.local.Has(e.msg.q) && 0 < e.msg.total <= MAX_SEGMENT_BYTES
    && (Asked(s, e.peer, e.msg.q) || InPushWindow(s, e.msg.q))
    && !SlotRefused(s, (e.peer, e.msg.q), e.msg.total)
  }

  /** An admitted chunk that leaves its segment incomplete and brings more than is left below the cap. */
  ghost predicate CarriesOver(s: Node, e: Event) {
    && Admitted(s, e)
    && var r := SlotAt(s, (e.peer, e.msg.q), e.msg.total).r;
       && !r.Add(e.msg.offset, e.msg.chunk).Complete()
       && s.asm.reasmBytes + r.Gain(e.msg.offset, e.msg.chunk) > MAX_REASM_BYTES
  }

  lemma ChunkCarriesExactly(s: Node, e: Event)
    requires BufferInv(s) && s.asm.reasmBytes <= MAX_REASM_BYTES && Admitted(s, e)
    ensures var m := e.msg;
            OnSegmentData(s, e.peer, m.q, m.total, m.offset, m.chunk, e.order).asm.reasmBytes > MAX_REASM_BYTES
            <==> CarriesOver(s, e)
  {
    hide SlotsInv, ParkInv, Completed, DropSlots, SlotRefused, Reasm.Add, Reasm.Gain, Reasm.Complete, BufMap.Has,
         Asked, InPushWindow;
    var p, m := e.peer, e.msg;
    var k := (p, m.q);
    BufferChunkInv(s, k, m.total, m.offset, m.chunk);
    var s1 := BufferChunk(s, k, m.total, m.offset, m.chunk);
    DropSlotsInv(s1, {k});
    var s2 := DropSlots(s1, {k});
    LastSlotFewer(s, k, m.total, m.offset, m.chunk);
    var r := s1.asm.reasm[k].r;
    CompletedBuffers(s2, p, m.q, r, e.order);
    FewerBytes(s, s2);
    FewerBytes(s2, Completed(s2, p, m.q, r, e.order));
  }

  lemma LastSlotFewer(s: Node, k: (Peer, Seq), total: nat, offset: nat, chunk: Bytes)
    ensures Fewer(s, DropSlots(BufferChunk(s, k, total, offset, chunk), {k}))
  {
    hide Total, Restrict, Reasm.Add, Reasm.Gain;
  }

  /** From a counter within the cap, one event takes it past the cap exactly when it carries it over. */
  lemma StepCarriesExactly(s: Node, e: Event)
    requires BufferInv(s) && Legal(s, e) && s.asm.reasmBytes <= MAX_REASM_BYTES
    ensures Step(s, e).asm.reasmBytes > MAX_REASM_BYTES <==> CarriesOver(s, e)
  {
    hide Step, Legal, CarriesOver, BufferInv;
    StepBuffers(s, e);
    if Silent(e) {
      FewerBytes(s, Step(s, e));
      NotAChunk(s, e);
    } else if Admitted(s, e) {
      InboundIs(s, e);
      ChunkCarriesExactly(s, e);
    } else {
      RefusedFewer(s, e);
      FewerBytes(s, Step(s, e));
      NotAChunk(s, e);
    }
  }

  lemma NotAChunk(s: Node, e: Event)
    requires !Admitted(s, e)
    ensures !CarriesOver(s, e)
  {
    hide Admitted;
  }

  lemma InboundIs(s: Node, e: Event)
    requires Legal(s, e) && Admitted(s, e)
    ensures var m := e.msg; Step(s, e) == OnSegmentData(s, e.peer, m.q, m.total, m.offset, m.chunk, e.order)
  {
    hide OnSegmentData, SlotRefused, BufMap.Has, Asked, InPushWindow;
  }

  lemma RefusedFewer(s: Node, e: Event)
    requires BufferInv(s) && Legal(s, e) && e.Inbound? && e.msg.SegmentData? && !Admitted(s, e)
    ensures Fewer(s, Step(s, e))
  {
    hide Penalize, Completed, DropSlots, BufferChunk, SlotRefused, BufMap.Has, Asked, InPushWindow, SlotsInv, ParkInv;
    PenalizeBuffers(s, e.peer, ProtocolAbuse);
  }
}
