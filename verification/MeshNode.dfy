/** The actor itself (crates/unstation-core/src/node.rs): one object whose handlers update its fields in
    place. Every handler is proved to compute the function of the same step in `MeshState`; `Valid` says
    that the object's life so far is a run, so every theorem of `MeshRuns` applies to it. `hist`, `trace`
    and `events` only record what the node did. */
module MeshActor {
  import opened Common
  import opened BufferMaps
  import opened Reassembly
  import opened SegmentStores
  import opened Picker
  import opened Wire
  import opened MeshState
  import M = MeshState
  import Runs = MeshRuns
  import MeshFlight
  import MeshBuffers
  import MeshDelivery

  // ---- sweeping a table key by key ----

  lemma DropOneMore(s: Node, ks: set<(Peer, Seq)>, k: (Peer, Seq))
    requires k !in ks
    ensures DropSlots(DropSlots(s, ks), {k}) == DropSlots(s, ks + {k})
  {
    hide Total;
    var all, left := Buffered(s.asm.reasm), Buffered(s.asm.reasm - ks);
    TotalRestrictMore(all, ks, k);
    TotalRestrictMore(left, {}, k);
    assert Restrict(left, {}) == map[] && {} + {k} == {k};
    NoTotal<(Peer, Seq)>();
    assert s.asm.reasm - ks - {k} == s.asm.reasm - (ks + {k});
  }

  lemma NoTotal<K>()
    ensures Total<K>(map[]) == 0
  {}

  lemma DropNone(s: Node)
    ensures DropSlots(s, {}) == s
  {
    hide Total;
    assert Restrict(Buffered(s.asm.reasm), {}) == map[];
    NoTotal<(Peer, Seq)>();
    assert s.asm.reasm - {} == s.asm.reasm;
  }

  lemma DropSingle(s: Node, k: (Peer, Seq))
    ensures DropSlots(s, {k}).asm
            == if k in s.asm.reasm
               then Assembly(s.asm.reasm - {k}, SatSub(s.asm.reasmBytes, s.asm.reasm[k].r.buffered)) else s.asm
  {
    hide Total;
    DropNone(s);
    TotalRestrictMore(Buffered(s.asm.reasm), {}, k);
    assert {} + {k} == {k};
    assert Restrict(Buffered(s.asm.reasm), {}) == map[];
    NoTotal<(Peer, Seq)>();
    if k !in s.asm.reasm { assert s.asm.reasm - {k} == s.asm.reasm; }
  }

  lemma ChargeKeeps(s: Node, p: Peer, why: Penalty)
    requires p in s.peers
    ensures Charge(s, p, why).subscribers == s.subscribers && SlotsOf(Charge(s, p, why), p) == SlotsOf(s, p)
  {}

  lemma SameSlots(s: Node, t: Node, p: Peer)
    requires s.asm == t.asm
    ensures SlotsOf(s, p) == SlotsOf(t, p)
  {}

  lemma NextTarget(s: Node, q: Seq, order: seq<Peer>, i: nat)
    requires i < |order|
    ensures Targets(s, q, order[i..]) ==
            (if order[i] in s.peers ==> !s.peers[order[i]].choked && !s.peers[order[i]].buffer.Has(q) then [order[i]]
             else []) + Targets(s, q, order[i + 1..])
  {
    assert order[i..][1..] == order[i + 1..];
  }

  lemma NoTargets(s: Node, q: Seq)
    ensures Targets(s, q, []) == []
  {}

  lemma JoinKeepsLinks(s: Node, p: Peer)
    ensures Join(s, p).links == s.links
  {}

  /** What a prune to `floor` does. */
  ghost function Pruned(s: Node, floor: Seq): Node {
    s.(win := s.win.(floor := floor, store := s.win.store.PruneBelow(floor), local := s.win.local.PruneBelow(floor)),
       edge := s.edge.(ids := map q | q in s.edge.ids && q >= floor :: s.edge.ids[q]))
  }

  lemma PruneIs(s: Node)
    ensures TickPrune(s) == if s.cfg.live && s.cfg.role != Publisher && PruneFloor(s) > s.win.floor
                            then Pruned(s, PruneFloor(s)) else s
  {
    hide Store.PruneBelow, BufMap.PruneBelow, BufMap.Highest;
  }

  /** The admission gate for segment bytes. */
  datatype Admission = Ignore | Punish | Buffer

  function Admitted(s: Node, p: Peer, q: Seq, total: nat): Admission {
    if s.win.local.Has(q) || total == 0 || total > MAX_SEGMENT_BYTES then Ignore
    else if !Asked(s, p, q) && !InPushWindow(s, q) then (if Spray(s, q) then Punish else Ignore)
    else if SlotRefused(s, (p, q), total) then Ignore
    else Buffer
  }

  lemma GateDecides(s: Node, p: Peer, q: Seq, total: nat, offset: nat, chunk: Bytes, order: seq<Peer>)
    ensures OnSegmentData(s, p, q, total, offset, chunk, order)
            == match Admitted(s, p, q, total)
               case Ignore => s
               case Punish => Penalize(s, p, ProtocolAbuse)
               case Buffer =>
                 var s1 := BufferChunk(s, (p, q), total, offset, chunk);
                 var r := s1.asm.reasm[(p, q)].r;
                 if r.Complete() then Completed(DropSlots(s1, {(p, q)}), p, q, r, order) else s1
  {
    hide Penalize, DropSlots, Completed, BufMap.Has, Reasm.Add, Reasm.Gain, Reasm.Complete, Spray;
  }

  class MeshNode {
    const env: Env
    var cfg: Config
    var nowMs: nat
    var links: set<Peer>
    var peers: map<Peer, PeerState>
    var subscribers: set<Peer>
    var pending: map<Seq, Ask>
    var hedge: map<Seq, Ask>
    var reasm: map<(Peer, Seq), Slot>
    var reasmBytes: nat
    var pendingVerify: map<Seq, Parked>
    var pendingVerifyBytes: nat
    var segmentIds: map<Seq, Digest>
    var publisherKey: Option<Digest>
    var edgeSeen: set<Seq>
    var headSeq: Seq
    const local: BufferMap
    const store: SegmentStore
    var playSeq: Seq
    var lastPruneFloor: Seq
    var deliveredTotal: nat
    var uploadTokens: real
    var lastTokenMs: nat
    var lastChokeMs: nat
    var fallbackInflight: map<Seq, Digest>
    ghost var hist: History
    ghost var trace: seq<Node>
    ghost var events: seq<Event>

    /** The states and events since construction form a run that ends here. */
    ghost predicate Valid() reads this, local, store { IsRun(trace, events) && trace[|events|] == View() }

    ghost function View(): Node reads this, local, store {
      Node(env, cfg, nowMs, links, peers, subscribers, Flight(pending, hedge), Assembly(reasm, reasmBytes),
           ParkingLot(pendingVerify, pendingVerifyBytes), Edge(segmentIds, publisherKey, edgeSeen, headSeq),
           Window(local.View(), store.View(), playSeq, lastPruneFloor, deliveredTotal),
           Meter(uploadTokens, lastTokenMs, lastChokeMs), fallbackInflight, hist)
    }

    constructor (env: Env, cfg: Config, key: Option<Digest>, ids: map<Seq, Digest>, head: Seq, capacity: nat,
                 disk: bool)
      requires head <= U64_MAX
      ensures Valid() && events == []
      ensures View() == Start(env, cfg, key, ids, head, capacity, disk)
      ensures fresh(local) && fresh(store)
    {
      this.env, this.cfg, nowMs := env, cfg, 0;
      links, peers, subscribers := {}, map[], {};
      pending, hedge, reasm, reasmBytes := map[], map[], map[], 0;
      pendingVerify, pendingVerifyBytes := map[], 0;
      segmentIds, publisherKey, edgeSeen, headSeq := ids, key, {}, head;
      local := new BufferMap(0);
      store := new SegmentStore(capacity, disk);
      playSeq, lastPruneFloor, deliveredTotal := 0, 0, 0;
      uploadTokens := if cfg.budget > 0 then Burst(cfg.budget, env.segBytes) else 0.0;
      lastTokenMs, lastChokeMs, fallbackInflight := 0, 0, map[];
      hist := History([], ids.Items, [], 0);
      trace, events := [Start(env, cfg, key, ids, head, capacity, disk)], [];
    }

    // ---- request and slot accounting ----

    method ReleaseBytes(p: Peer)
      modifies this
      ensures View() == Release(old(View()), p)
    {
      if p in peers { peers := peers[p := peers[p].(pendingBytes := SatSub(peers[p].pendingBytes, env.segBytes))]; }
    }

    /** Forget a segment's requests, releasing the asked peers' budget. */
    method ClearPending(q: Seq) returns (asked: Option<Ask>)
      modifies this
      ensures View() == M.ClearPending(old(View()), q) && asked == AskedFor(old(View()), q)
    {
      hide Release;
      asked := None;
      if q in pending {
        var a := pending[q];
        asked := Some(a);
        pending := pending - {q};
        ReleaseBytes(a.peer);
      }
      if q in hedge {
        var h := hedge[q];
        hedge := hedge - {q};
        ReleaseBytes(h.peer);
      }
    }

    method RemoveReasm(k: (Peer, Seq))
      modifies this
      ensures View() == DropSlots(old(View()), {k})
    {
      DropSingle(View(), k);
      hide Total, Restrict;
      if k in reasm {
        reasmBytes := SatSub(reasmBytes, reasm[k].r.buffered);
        reasm := reasm - {k};
      }
    }

    method RemoveReasms(ks: set<(Peer, Seq)>)
      modifies this
      ensures View() == DropSlots(old(View()), ks)
    {
      hide DropSlots;
      DropNone(View());
      var todo := ks;
      assert ks - todo == {};
      while todo != {}
        invariant todo <= ks && View() == DropSlots(old(View()), ks - todo)
      {
        var k :| k in todo;
        DropOneMore(old(View()), ks - todo, k);
        assert ks - (todo - {k}) == ks - todo + {k};
        RemoveReasm(k);
        todo := todo - {k};
      }
      assert ks - {} == ks;
    }

    method Demerit(p: Peer, why: Penalty) returns (crossed: bool)
      requires p in peers
      modifies this
      ensures View() == Charge(old(View()), p, why) && p in peers
              && crossed == (peers[p].banned && !old(peers)[p].banned)
    {
      hide Decay;
      var st := peers[p];
      var scored := Score(st, why);
      crossed := scored.banned && !st.banned;
      peers := peers[p := scored];
      hist := hist.(conduct := hist.conduct + [Charged(p, why)]);
    }

    method RemoveReasmsOf(p: Peer)
      modifies this
      ensures View() == DropSlots(old(View()), SlotsOf(old(View()), p))
    {
      hide DropSlots;
      var ks := set k | k in reasm && k.0 == p;
      assert ks == SlotsOf(View(), p);
      RemoveReasms(ks);
    }

    /** The rest of a banned peer's state unwinds when its closed link reports the disconnect. */
    method Ban(p: Peer)
      modifies this
      ensures View() == DropSlots(Note(old(View()), Banned(p)).(subscribers := old(subscribers) - {p}),
                                  SlotsOf(old(View()), p))
    {
      hide DropSlots;
      subscribers := subscribers - {p};
      hist := hist.(conduct := hist.conduct + [Banned(p)]);
      SameSlots(View(), old(View()), p);
      hide SlotsOf;
      RemoveReasmsOf(p);
    }

    /** Charge a peer; below the floor it is banned and its partial state dropped. */
    method Penalize(p: Peer, why: Penalty)
      modifies this
      ensures View() == M.Penalize(old(View()), p, why)
    {
      hide DropSlots, Charge, Note, SlotsOf;
      if p !in peers { return; }
      ChargeKeeps(View(), p, why);
      var crossed := Demerit(p, why);
      if crossed { Ban(p); }
    }

    // ---- delivery ----

    method PushTargets(q: Seq, order: seq<Peer>) returns (targets: seq<Peer>)
      ensures targets == Targets(View(), q, order)
    {
      targets := [];
      ghost var s := View();
      assert order[0..] == order;
      hide Targets, BufMap.Has;
      for i := 0 to |order|
        invariant Targets(s, q, order) == targets + Targets(s, q, order[i..])
      {
        var p := order[i];
        NextTarget(s, q, order, i);
        if p in peers ==> !peers[p].choked && !peers[p].buffer.Has(q) { targets := targets + [p]; }
      }
      assert Targets(s, q, order[|order|..]) == [] by { NoTargets(s, q); }
    }

    method PushToSubscribers(q: Seq, order: seq<Peer>)
      modifies this
      ensures View() == M.PushToSubscribers(old(View()), q, order)
    {
      if subscribers == {} { return; }
      var got := store.Get(q);
      if got.None? { return; }
      var size, metered := |got.value|, cfg.budget > 0;
      var targets := PushTargets(q, order);
      hide Targets, Store.Get, PushLedger;
      ghost var sent;
      uploadTokens, sent := PushOut(links, metered, size, targets, uploadTokens, hist.sent);
      hist := hist.(sent := sent);
    }

    method StoreVerified(q: Seq, id: Digest, b: Bytes)
      modifies this, local, store
      ensures View() == Keep(old(View()), q, id, b)
    {
      hide Store.Insert, BufMap.Set;
      store.Insert(q, id, b);
      HasIsMembership(local.View(), q);
      var had := local.Has(q);
      if !had { deliveredTotal := deliveredTotal + 1; }
      local.Set(q);
    }

    method DeliverVerified(q: Seq, id: Digest, b: Bytes, order: seq<Peer>)
      modifies this, local, store
      ensures View() == M.DeliverVerified(old(View()), q, id, b, order)
    {
      hide M.PushToSubscribers, Keep;
      StoreVerified(q, id, b);
      hist := hist.(sink := hist.sink + [(q, b)]);
      PushToSubscribers(q, order);
    }

    method AcceptSegment(p: Peer, q: Seq, id: Digest, b: Bytes, order: seq<Peer>)
      modifies this, local, store
      ensures View() == M.AcceptSegment(old(View()), p, q, id, b, order)
    {
      hide M.ClearPending, M.DeliverVerified;
      var asked := ClearPending(q);
      if p in peers {
        var st := peers[p];
        if asked.Some? && asked.value.peer == p {
          var elapsed := Max(SatSub(nowMs, asked.value.sent), 1);
          st := st.(throughput := st.throughput.Update(|b| as real * 8000.0 / elapsed as real));
        }
        if !st.banned { st := st.(reputation := MinReal(st.reputation + REPUTATION_HEAL, 1.0)); }
        peers := peers[p := st];
      }
      DeliverVerified(q, id, b, order);
    }

    // ---- bytes ahead of their id ----

    method BufferPendingVerify(p: Peer, q: Seq, raw: Bytes)
      modifies this
      ensures View() == Park(old(View()), p, q, raw)
    {
      if q in pendingVerify || pendingVerifyBytes + |raw| > MAX_PENDING_VERIFY_BYTES { return; }
      pendingVerifyBytes := pendingVerifyBytes + |raw|;
      pendingVerify := pendingVerify[q := Parked(p, raw)];
    }

    method TryVerifyPending(q: Seq, order: seq<Peer>)
      modifies this, local, store
      ensures View() == TryVerifyParked(old(View()), q, order)
    {
      hide M.AcceptSegment, M.Penalize, BufMap.Has;
      if q !in pendingVerify { return; }
      var p, raw := pendingVerify[q].peer, pendingVerify[q].raw;
      pendingVerify := pendingVerify - {q};
      pendingVerifyBytes := SatSub(pendingVerifyBytes, |raw|);
      HasIsMembership(local.View(), q);
      var had := local.Has(q);
      if had || q !in segmentIds { return; }
      var id := segmentIds[q];
      if env.crypto.hash(raw) == id { AcceptSegment(p, q, id, raw, order); } else { Penalize(p, HashFail); }
    }

    method RecordId(q: Seq, id: Digest)
      modifies this
      ensures View() == Record(old(View()), q, id)
    {
      segmentIds := segmentIds[q := id];
      headSeq := Max(headSeq, q);
      hist := hist.(recorded := hist.recorded + {(q, id)});
    }

    method ApplyEdge(q: Seq, id: Digest, order: seq<Peer>)
      modifies this, local, store
      ensures View() == M.ApplyEdge(old(View()), q, id, order)
    {
      hide TryVerifyParked, Record;
      RecordId(q, id);
      TryVerifyPending(q, order);
    }

    // ---- inbound ----

    /** All chunks of a segment are in: verify them, or park them while the id is unknown. */
    method OnComplete(p: Peer, q: Seq, r: Reasm, order: seq<Peer>)
      requires r.Complete()
      modifies this, local, store
      ensures View() == Completed(old(View()), p, q, r, order)
    {
      hide M.AcceptSegment, M.Penalize, M.ClearPending, Park, Cover, Concat;
      var data := JoinChunks(r.chunks);
      if q in segmentIds {
        if env.crypto.hash(data) == segmentIds[q] {
          AcceptSegment(p, q, segmentIds[q], data, order);
        } else {
          var asked := ClearPending(q);
          Penalize(p, HashFail);
        }
      } else {
        var asked := ClearPending(q);
        BufferPendingVerify(p, q, data);
      }
    }

    method AddChunk(k: (Peer, Seq), total: nat, offset: nat, chunk: Bytes) returns (r: Reasm)
      modifies this
      ensures View() == BufferChunk(old(View()), k, total, offset, chunk)
      ensures k in reasm && r == reasm[k].r
    {
      hide Reasm.Add, Reasm.Gain;
      var e := if k in reasm then reasm[k] else Slot(Fresh(total), nowMs);
      reasmBytes := reasmBytes + e.r.Gain(offset, chunk);
      r := e.r.Add(offset, chunk);
      reasm := reasm[k := e.(r := r)];
    }

    /** What to do with a chunk, before anything is allocated for it. */
    method Gate(p: Peer, q: Seq, total: nat) returns (g: Admission)
      ensures g == Admitted(View(), p, q, total)
    {
      hide BufMap.Has;
      HasIsMembership(local.View(), q);
      var had := local.Has(q);
      if had || total == 0 || total > MAX_SEGMENT_BYTES { return Ignore; }
      var asked := (q in pending && pending[q].peer == p) || (q in hedge && hedge[q].peer == p);
      var inWindow := playSeq <= q <= headSeq + PUSH_AHEAD;
      if !asked && !inWindow {
        return if q > headSeq + PUSH_AHEAD * 4 || q + cfg.window < playSeq then Punish else Ignore;
      }
      if (p, q) !in reasm && (|reasm| >= MAX_REASM || reasmBytes + total > MAX_REASM_BYTES) { return Ignore; }
      return Buffer;
    }

    method OnSegmentData(p: Peer, q: Seq, total: nat, offset: nat, chunk: Bytes, order: seq<Peer>)
      modifies this, local, store
      ensures View() == M.OnSegmentData(old(View()), p, q, total, offset, chunk, order)
    {
      hide M.Penalize, BufferChunk, DropSlots, Completed, Cover, Admitted;
      GateDecides(View(), p, q, total, offset, chunk, order);
      hide M.OnSegmentData;
      var g := Gate(p, q, total);
      if g.Ignore? { return; }
      if g.Punish? { Penalize(p, ProtocolAbuse); return; }
      var r := AddChunk((p, q), total, offset, chunk);
      var end := Walk(r.chunks);
      if end == Some(r.total) {
        RemoveReasm((p, q));
        OnComplete(p, q, r, order);
      }
    }

    method EnqueueWants(p: Peer, seqs: seq<Seq>)
      modifies this
      ensures View() == OnWant(old(View()), p, seqs)
    {
      hide M.Penalize;
      if |seqs| > MAX_WANT_SEQS { Penalize(p, ProtocolAbuse); return; }
      if p !in peers || peers[p].choked { return; }
      var queue := Queued(peers[p].queue, seqs);
      peers := peers[p := peers[p].(queue := queue)];
    }

    method EnsurePeer(p: Peer)
      modifies this
      ensures View() == Join(old(View()), p) && p in peers
    {
      if p !in peers {
        peers := peers[p := NEWCOMER];
        hist := hist.(conduct := hist.conduct + [Joined(p)]);
      }
    }

    method OnPeerMap(p: Peer, base: Seq, bitfield: Bytes)
      modifies this
      ensures View() == OnBufferMap(old(View()), p, base, bitfield)
    {
      hide M.Penalize, FromBytes, Join;
      if |bitfield| > MAX_BITFIELD_BYTES { Penalize(p, ProtocolAbuse); return; }
      EnsurePeer(p);
      peers := peers[p := peers[p].(buffer := FromBytes(base, bitfield))];
    }

    method OnNote(p: Peer, msg: Msg)
      modifies this
      ensures View() == OnPeerNote(old(View()), p, msg)
    {
      hide Noted;
      if msg.Subscribe? { subscribers := subscribers + {p}; }
      else if msg.Unsubscribe? { subscribers := subscribers - {p}; }
      else if p in peers { peers := peers[p := Noted(peers[p], msg, nowMs)]; }
    }

    /** A gossiped edge: verify, deduplicate, then apply. */
    method OnEdge(q: Seq, id: Digest, sig: Bytes, order: seq<Peer>)
      modifies this, local, store
      ensures View() == OnEdgeAnnounce(old(View()), q, id, sig, order)
    {
      hide M.ApplyEdge, EdgePayload;
      if publisherKey.None? { return; }
      if !env.crypto.verify(publisherKey.value, EdgePayload(env.stream, q, id), sig) { return; }
      if q in edgeSeen { return; }
      edgeSeen := edgeSeen + {q};
      ApplyEdge(q, id, order);
    }

    method OnInbound(p: Peer, msg: Msg, order: seq<Peer>)
      modifies this, local, store
      ensures View() == M.OnInbound(old(View()), p, msg, order)
    {
      hide M.OnSegmentData, OnEdgeAnnounce, M.OnChatter;
      if p in peers && peers[p].banned { return; }
      match msg
      case SegmentData(q, total, offset, chunk) => OnSegmentData(p, q, total, offset, chunk, order);
      case EdgeAnnounce(q, id, sig) => OnEdge(q, id, sig, order);
      case _ => OnChatter(p, msg);
    }

    method OnChatter(p: Peer, msg: Msg)
      modifies this
      ensures View() == M.OnChatter(old(View()), p, msg)
    {
      hide OnBufferMap, OnWant, OnPeerNote, M.Penalize;
      match msg
      case BufferMapMsg(base, bitfield) => OnPeerMap(p, base, bitfield);
      case Want(seqs) => EnqueueWants(p, seqs);
      case PeerGossip(n) => if n > MAX_GOSSIP_PEERS { Penalize(p, ProtocolAbuse); }
      case PresenceGossip(n) => if n > MAX_GOSSIP_RECORDS { Penalize(p, ProtocolAbuse); }
      case _ => OnNote(p, msg);
    }

    // ---- connections and local events ----

    method OnPeerConnected(p: Peer, refused: bool)
      modifies this
      ensures View() == OnConnected(old(View()), p, refused)
    {
      if refused { return; }
      JoinKeepsLinks(View(), p);
      hide Join;
      EnsurePeer(p);
      links := links + {p};
    }

    /** Everything keyed by the peer alone. */
    method Forget(p: Peer)
      modifies this
      ensures View() == old(View()).(links := old(links) - {p}, peers := old(peers) - {p},
                                     subscribers := old(subscribers) - {p})
    {
      links := links - {p};
      peers := peers - {p};
      subscribers := subscribers - {p};
    }

    method OnPeerDisconnected(p: Peer)
      modifies this
      ensures View() == OnDisconnected(old(View()), p)
    {
      hide DropSlots, Promoted, Unhedged, SlotsOf;
      ghost var s0 := View();
      Forget(p);
      pending, hedge := DropRequestsTo(pending, hedge, p);
      assert View() == s0.(links := s0.links - {p}, peers := s0.peers - {p}, subscribers := s0.subscribers - {p},
                           flight := Flight(Promoted(s0.flight.pending, s0.flight.hedge, p),
                               Unhedged(s0.flight.pending, s0.flight.hedge, p)));
      SameSlots(View(), s0, p);
      RemoveReasmsOf(p);
    }

    method MarkSeen(q: Seq)
      modifies this
      ensures View() == See(old(View()), q)
    {
      edgeSeen := edgeSeen + {q};
    }

    method OnSegmentProduced(q: Seq, id: Digest, b: Bytes, order: seq<Peer>)
      modifies this, local, store
      ensures View() == OnProduced(old(View()), q, id, b, order)
    {
      hide M.PushToSubscribers, Keep, Record, See;
      StoreVerified(q, id, b);
      RecordId(q, id);
      if env.signs { MarkSeen(q); }
      PushToSubscribers(q, order);
    }

    method SetUploadBudget(bps: nat)
      modifies this
      ensures View() == OnSetBudget(old(View()), bps)
    {
      hide Burst;
      cfg := cfg.(budget := bps);
      if bps > 0 { uploadTokens := MinReal(uploadTokens, Burst(bps, env.segBytes)); }
    }

    method OnFallbackDone(q: Seq, bytes: Option<Bytes>, order: seq<Peer>)
      requires q in fallbackInflight
      modifies this, local, store
      ensures View() == OnFallback(old(View()), q, bytes, order)
    {
      hide M.ClearPending, M.DeliverVerified, BufMap.Has;
      var id := fallbackInflight[q];
      fallbackInflight := fallbackInflight - {q};
      if bytes.None? { return; }
      HasIsMembership(local.View(), q);
      var had := local.Has(q);
      if had || env.crypto.hash(bytes.value) != id { return; }
      var asked := ClearPending(q);
      DeliverVerified(q, id, bytes.value, order);
    }

    // ---- the tick ----

    /** Follow the player; a live seed follows the edge, a live viewer left a window behind snaps to it. */
    method AdvanceCursor(playHead: Seq)
      modifies this
      ensures View() == TickCursor(old(View()), playHead)
    {
      if playHead > playSeq { playSeq := playHead; }
      var edge := SatSub(headSeq, cfg.window / 2);
      if cfg.role == Role.Seed && cfg.live && edge > playSeq { playSeq := edge; }
      if cfg.role == Viewer && cfg.live && edge > playSeq + cfg.window { playSeq := edge; }
    }

    method PruneTo(floor: Seq)
      modifies this, local, store
      ensures View() == Pruned(old(View()), floor)
    {
      hide Store.PruneBelow, BufMap.PruneBelow;
      lastPruneFloor := floor;
      store.PruneBelow(floor);
      local.PruneBelow(floor);
      segmentIds := map q | q in segmentIds && q >= floor :: segmentIds[q];
    }

    method PruneWindow()
      modifies this, local, store
      ensures View() == TickPrune(old(View()))
    {
      PruneIs(View());
      hide TickPrune, Pruned, BufMap.Highest;
      if !cfg.live || cfg.role == Publisher { return; }
      var h := local.Highest();
      var anchor := if h.Some? then Min(playSeq, h.value) else playSeq;
      var floor := SatSub(anchor, cfg.window);
      if floor > lastPruneFloor { PruneTo(floor); }
    }

    method RefillTokens()
      modifies this
      ensures View() == TickRefill(old(View()))
    {
      hide Burst;
      if cfg.budget == 0 { return; }
      var dt := SatSub(nowMs, lastTokenMs);
      lastTokenMs := nowMs;
      uploadTokens := MinReal(uploadTokens + cfg.budget as real / 8.0 * (dt as real / 1000.0),
          Burst(cfg.budget, env.segBytes));
    }

    method ServeOne(p: Peer)
      modifies this
      ensures View() == ServePeer(old(View()), p)
    {
      hide ServeQueue;
      if p !in peers || peers[p].choked { return; }
      var queue, tokens;
      ghost var sent;
      queue, tokens, sent := Drain(store, p in links, cfg.budget > 0, env.segBytes, peers[p].queue, uploadTokens,
          hist.sent);
      peers := peers[p := peers[p].(queue := queue)];
      uploadTokens := tokens;
      hist := hist.(sent := sent);
    }

    method ServeQueues(order: seq<Peer>)
      modifies this
      ensures View() == TickServe(old(View()), order)
    {
      hide ServePeer;
      for i := 0 to |order|
        invariant View() == TickServe(old(View()), order[..i])
      {
        assert order[..i + 1][..i] == order[..i];
        ServeOne(order[i]);
      }
      assert order[..|order|] == order;
    }

    method ExpireRequest(q: Seq)
      modifies this
      ensures View() == ExpireOne(old(View()), q)
    {
      hide M.ClearPending, M.Penalize, DropSlots;
      if q !in pending || SatSub(nowMs, pending[q].sent) < PENDING_TIMEOUT_MS { return; }
      var asked := ClearPending(q);
      RemoveReasm((asked.value.peer, q));
      Penalize(asked.value.peer, Timeout);
    }

    method ExpireRequests(order: seq<Seq>)
      modifies this
      ensures View() == TickExpire(old(View()), order)
    {
      hide ExpireOne;
      for i := 0 to |order|
        invariant View() == TickExpire(old(View()), order[..i])
      {
        assert order[..i + 1][..i] == order[..i];
        ExpireRequest(order[i]);
      }
      assert order[..|order|] == order;
    }

    method SweepReassembly()
      modifies this
      ensures View() == DropSlots(old(View()), OldSlots(old(View())))
    {
      hide DropSlots;
      var ks := set k | k in reasm && SatSub(nowMs, reasm[k].created) >= REASM_TTL_MS;
      assert ks == OldSlots(View());
      RemoveReasms(ks);
    }

    method DropBehindPlay()
      modifies this
      ensures View() == TickUnpark(old(View()))
    {
      var gone := set q | q in pendingVerify && q < playSeq;
      assert gone == Behind(View());
      hide Behind;
      pendingVerify, pendingVerifyBytes := Unparked(pendingVerify, pendingVerifyBytes, gone);
    }

    method TrimSeen()
      modifies this
      ensures View() == TickTrim(old(View()))
    {
      if |edgeSeen| <= EDGE_SEEN_KEEP { return; }
      var cutoff := SatSub(headSeq, EDGE_SEEN_KEEP);
      edgeSeen := set q | q in edgeSeen && q >= cutoff;
    }

    method ReviewChokes(unchoked: set<Peer>)
      modifies this
      ensures View() == TickChoke(old(View()), unchoked)
    {
      if peers == map[] || !(lastChokeMs == 0 || SatSub(nowMs, lastChokeMs) >= CHOKE_INTERVAL_MS) { return; }
      lastChokeMs := nowMs;
      if cfg.role != Viewer { return; }
      peers := map p | p in peers :: peers[p].(choked := p !in unchoked);
    }

    method PeerViews(order: seq<Peer>) returns (views: seq<PeerView>)
      ensures views == ViewsOf(peers, order)
    {
      views := [];
      for i := 0 to |order|
        invariant views == ViewsOf(peers, order[..i])
      {
        assert order[..i + 1][..i] == order[..i];
        var p := order[i];
        if p in peers && !peers[p].banned {
          views := views + [PeerView(p, peers[p].buffer, peers[p].throughput.Or(5_000_000.0), peers[p].rtt.Or(80.0),
                                     peers[p].pendingBytes, peers[p].reputation)];
        }
      }
      assert order[..|order|] == order;
    }

    method AskFor(q: Seq, p: Peer, redundant: bool)
      modifies this
      ensures View() == AskPeer(old(View()), q, p, redundant)
    {
      var hedging := q in pending;
      if hedging && (!redundant || pending[q].peer == p || q in hedge) { return; }
      if p !in peers || peers[p].chokedBy || p !in links { return; }
      hide Want1;
      if hedging { hedge := hedge[q := Ask(p, nowMs)]; } else { pending := pending[q := Ask(p, nowMs)]; }
      Bill(p);
    }

    method Bill(p: Peer)
      requires p in peers
      modifies this
      ensures View() == Want1(old(View()), p)
    {
      peers := peers[p := peers[p].(pendingBytes := peers[p].pendingBytes + env.segBytes)];
    }

    method FetchFromFloor(q: Seq)
      modifies this
      ensures View() == RequestFallback(old(View()), q)
    {
      if !env.fallback || q in fallbackInflight || |fallbackInflight| >= MAX_FALLBACK_INFLIGHT || q !in segmentIds {
        return;
      }
      fallbackInflight := fallbackInflight[q := segmentIds[q]];
    }

    method IssueRequest(r: Request)
      modifies this
      ensures View() == Issue(old(View()), r)
    {
      hide AskPeer, RequestFallback;
      if r.seq_ in pendingVerify { return; }
      match r.source
      case FromPeer(p) => AskFor(r.seq_, p, r.redundant);
      case _ => FetchFromFloor(r.seq_);
    }

    method IssueRequests(rs: seq<Request>)
      modifies this
      ensures View() == IssueAll(old(View()), rs)
    {
      hide Issue;
      for i := 0 to |rs|
        invariant View() == IssueAll(old(View()), rs[..i])
      {
        assert rs[..i + 1][..i] == rs[..i];
        IssueRequest(rs[i]);
      }
      assert rs[..|rs|] == rs;
    }

    method Upkeep(t: TickInput)
      modifies this
      ensures View() == TickUpkeep(old(View()), t)
    {
      hide TickExpire, DropSlots, OldSlots, TickUnpark, TickTrim, TickChoke;
      ExpireRequests(t.askOrder);
      SweepReassembly();
      DropBehindPlay();
      TrimSeen();
      ReviewChokes(t.unchoked);
    }

    method PlanRequests(order: seq<Peer>, chance: Chance) returns (rs: seq<Request>)
      ensures rs == PickInput(View(), order).Plan(local.View(), chance)
    {
      hide Input.Plan, ViewsOf;
      var views := PeerViews(order);
      var inp := Input(playSeq, headSeq, cfg.window, env.segBytes, cfg.segMs, views, cfg.weights, env.seedAvailable,
          env.fallback);
      rs := PlanTick(inp, BufMap(local.base, local.bits), chance);
    }

    method OnTick(t: TickInput)
      modifies this, local, store
      ensures View() == M.OnTick(old(View()), t)
    {
      hide TickCursor, TickPrune, TickRefill, TickServe, TickUpkeep, IssueAll, PickInput, Input.Plan;
      nowMs := nowMs + t.dt;
      assert View() == old(View()).(now := old(View()).now + t.dt);
      AdvanceCursor(t.playHead);
      PruneWindow();
      RefillTokens();
      ServeQueues(t.peerOrder);
      Upkeep(t);
      var rs := PlanRequests(t.peerOrder, t.chance);
      IssueRequests(rs);
    }

    method TrustPublisher(key: Digest)
      modifies this
      ensures View() == old(View()).(edge := old(View()).edge.(key := Some(key)))
    {
      publisherKey := Some(key);
    }

    method SetConfig(c: Config)
      modifies this
      ensures View() == old(View()).(cfg := c)
    {
      cfg := c;
    }

    /** One event of the actor's inbox: the run goes on, and everything proved of runs holds of the object. */
    method OnEvent(e: Event)
      requires Valid() && Legal(View(), e)
      modifies this, local, store
      ensures Valid() && events == old(events) + [e] && trace == old(trace) + [View()]
      ensures Runs.Sound(View())
      ensures e.Tick? ==> MeshFlight.AllFresh(View()) && MeshBuffers.AllYoung(View())
      ensures Runs.OnTime(trace, events) ==> MeshDelivery.DeliveryInv(View())
    {
      hide Step, Legal, IsStart, Runs.Sound, MeshDelivery.DeliveryInv, MeshFlight.AllFresh, MeshBuffers.AllYoung;
      ghost var tr, es := trace, events;
      Dispatch(e);
      Runs.RunExtends(tr, es, e, View());
      trace, events := tr + [View()], es + [e];
      Runs.EveryStateIsSound(trace, events);
    }

    method Dispatch(e: Event)
      requires Legal(View(), e)
      modifies this, local, store
      ensures View() == Step(old(View()), e)
    {
      hide OnConnected, OnDisconnected, M.OnInbound, OnProduced, M.ApplyEdge, OnSetBudget, M.OnTick, OnFallback,
          Enumerates;
      match e
      case PeerConnected(p, refused) => OnPeerConnected(p, refused);
      case PeerDisconnected(p) => OnPeerDisconnected(p);
      case Inbound(p, msg, order) => OnInbound(p, msg, order);
      case Produced(q, id, b, order) => OnSegmentProduced(q, id, b, order);
      case LiveEdge(q, id, order) => ApplyEdge(q, id, order);
      case SetPublisherKey(key) => TrustPublisher(key);
      case SetRole(role) => SetConfig(cfg.(role := role));
      case SetUploadBudget(bps) => SetUploadBudget(bps);
      case SetSegMs(ms) => SetConfig(cfg.(segMs := Max(ms, 1)));
      case Tick(t) => OnTick(t);
      case FallbackDone(q, bytes, order) => OnFallbackDone(q, bytes, order);
    }
  }

  /** Drain one peer's queue within the tick's byte allowance and the tokens. */
  method Drain(store: SegmentStore, linked: bool, metered: bool, segBytes: nat, wants: seq<Seq>, budget: real,
               ghost before: nat)
    returns (queue: seq<Seq>, tokens: real, ghost sent: nat)
    ensures Serving(queue, tokens, sent)
            == ServeQueue(store.View(), linked, metered, segBytes, 0, Serving(wants, budget, before))
  {
    queue, tokens, sent := wants, budget, before;
    var served: nat := 0;
    while served < SERVE_BYTES_PER_TICK && queue != []
      invariant ServeQueue(store.View(), linked, metered, segBytes, 0, Serving(wants, budget, before))
                == ServeQueue(store.View(), linked, metered, segBytes, served, Serving(queue, tokens, sent))
      decreases |queue|
    {
      var l := store.Locate(queue[0]);
      if l.Absent? { queue := queue[1..]; continue; }
      var size: nat := if l.Memory? then |store.mem[queue[0]]| else segBytes;
      if metered {
        if tokens < size as real { break; }
        tokens := tokens - size as real;
      }
      if l.Memory? && linked { sent := sent + size; }
      queue := queue[1..];
      served := served + size;
    }
  }

  /** Drop parked segments one by one, returning their bytes. */
  method Unparked(parked: map<Seq, Parked>, bytes: nat, gone: set<Seq>) returns (left: map<Seq, Parked>, total: nat)
    requires gone <= parked.Keys
    ensures left == parked - gone && total == SatSub(bytes, Total(Restrict(ParkedLengths(parked), gone)))
  {
    hide Total;
    left, total := parked, bytes;
    var todo := gone;
    assert Restrict(ParkedLengths(parked), gone - todo) == map[];
    NoTotal<Seq>();
    while todo != {}
      invariant todo <= gone && left == parked - (gone - todo)
      invariant total == SatSub(bytes, Total(Restrict(ParkedLengths(parked), gone - todo)))
    {
      var q :| q in todo;
      TotalRestrictMore(ParkedLengths(parked), gone - todo, q);
      assert gone - (todo - {q}) == gone - todo + {q};
      total := SatSub(total, |left[q].raw|);
      left := left - {q};
      todo := todo - {q};
    }
    assert gone - {} == gone;
  }

  /** `pending` with the requests in `done` gone, or replaced by their hedges. */
  ghost function Replaced(pending: map<Seq, Ask>, hedge: map<Seq, Ask>, done: set<Seq>): map<Seq, Ask> {
    map q | q in pending && (q !in done || q in hedge) :: if q in done then hedge[q] else pending[q]
  }

  /** Requests to a lost peer vanish, except that a hedge outlives its dead primary. */
  method DropRequestsTo(pending: map<Seq, Ask>, hedge: map<Seq, Ask>, p: Peer)
    returns (primary: map<Seq, Ask>, second: map<Seq, Ask>)
    ensures primary == Promoted(pending, hedge, p) && second == Unhedged(pending, hedge, p)
  {
    var dropped := set q | q in pending && pending[q].peer == p;
    var todo := dropped;
    primary, second := pending, hedge;
    while todo != {}
      invariant todo <= dropped
      invariant primary == Replaced(pending, hedge, dropped - todo)
      invariant second == hedge - (dropped - todo)
    {
      var q :| q in todo;
      assert dropped - (todo - {q}) == dropped - todo + {q};
      primary := primary - {q};
      if q in second {
        primary := primary[q := second[q]];
        second := second - {q};
      }
      todo := todo - {q};
    }
    second := map q | q in second && second[q].peer != p :: second[q];
  }

  method Queued(queue: seq<Seq>, seqs: seq<Seq>) returns (r: seq<Seq>)
    ensures r == Enqueue(queue, seqs)
  {
    r := queue;
    for i := 0 to |seqs|
      invariant Enqueue(queue, seqs) == Enqueue(r, seqs[i..])
    {
      assert seqs[i..][1..] == seqs[i + 1..];
      if |r| >= SERVE_QUEUE_MAX { break; }
      if seqs[i] !in r { r := r + [seqs[i]]; }
    }
  }

  /** One penalty's effect on a peer's standing. */
  method Score(st: PeerState, why: Penalty) returns (t: PeerState)
    ensures t == st.(reputation := Decay(st.reputation, why), strikes := st.strikes + (if why.Timeout? then 1 else 0),
                     banned := st.banned || Decay(st.reputation, why) < REPUTATION_FLOOR)
  {
    var rep := st.reputation * why.Factor();
    var strikes := st.strikes;
    if why.Timeout? {
      strikes := strikes + 1;
      rep := MaxReal(rep, TIMEOUT_REP_FLOOR);
    }
    var crossed := rep < REPUTATION_FLOOR && !st.banned;
    t := st.(reputation := rep, strikes := strikes, banned := st.banned || crossed);
  }

  /** Send to each target in turn until the tokens run out. */
  method PushOut(links: set<Peer>, metered: bool, size: nat, targets: seq<Peer>, budget: real, ghost before: nat)
    returns (tokens: real, ghost sent: nat)
    ensures (tokens, sent) == PushLedger(links, metered, size, targets, budget, before)
  {
    tokens, sent := budget, before;
    var i := 0;
    while i < |targets| && !(metered && tokens < size as real)
      invariant 0 <= i <= |targets|
      invariant PushLedger(links, metered, size, targets, budget, before)
                == PushLedger(links, metered, size, targets[i..], tokens, sent)
    {
      assert targets[i..][1..] == targets[i + 1..];
      if metered { tokens := tokens - size as real; }
      if targets[i] in links { sent := sent + size; }
      i := i + 1;
    }
  }
}
