/** What comes of a segment's bytes, of a request left unanswered, and of a message over its limit. */
module MeshOutcomes {
  import opened Common
  import opened BufferMaps
  import opened Reassembly
  import opened SegmentStores
  import opened Picker
  import opened Wire
  import opened MeshState

  // ---- charges ----

  /** `b` is `a` charged with `why`: half the reputation for a forgery, four fifths but no less than a tenth for a
      missed deadline, nine tenths for abuse; below a twentieth it is banned. */
  ghost predicate Demerit(a: PeerState, b: PeerState, why: Penalty) {
    && b.reputation == (match why
         case HashFail => a.reputation / 2.0
         case Timeout => MaxReal(a.reputation * 4.0 / 5.0, 0.1)
         case ProtocolAbuse => a.reputation * 9.0 / 10.0)
    && b.strikes == a.strikes + (if why.Timeout? then 1 else 0)
    && (b.banned <==> a.banned || b.reputation < 0.05)
    && b == a.(reputation := b.reputation, strikes := b.strikes, banned := b.banned)
  }

  /** Apart from `p`'s own standing, slots and subscription, nothing moved; nothing was played. */
  ghost predicate Quiet(s: Node, t: Node) {
    t.hist.sink == s.hist.sink && t.win == s.win && t.flight == s.flight && t.park == s.park && t.edge == s.edge
  }

  /** `p` is charged, if it is still in the table, and that is all. */
  ghost predicate Charges(s: Node, t: Node, p: Peer, why: Penalty) {
    && Quiet(s, t) && t.peers.Keys == s.peers.Keys
    && (forall x :: x in s.peers && x != p ==> t.peers[x] == s.peers[x])
    && (p in s.peers ==> Demerit(s.peers[p], t.peers[p], why))
    && (p in s.peers ==> |t.hist.conduct| > |s.hist.conduct| && t.hist.conduct[|s.hist.conduct|] == Charged(p, why))
  }

  lemma PenalizeCharges(s: Node, p: Peer, why: Penalty)
    ensures Charges(s, Penalize(s, p, why), p, why)
  {
    hide Total, Restrict, Buffered, SlotsOf;
  }

  // ---- requests ----

  /** The requests for `q` are over; no other changed. */
  ghost predicate Settled(s: Node, t: Node, q: Seq) {
    t.flight.pending == s.flight.pending - {q} && t.flight.hedge == s.flight.hedge - {q}
  }

  /** Everything is as it was but for requests and what their peers are billed. */
  ghost predicate OnlyBills(s: Node, t: Node) {
    && t == s.(peers := t.peers, flight := t.flight) && t.peers.Keys == s.peers.Keys
    && forall x :: x in s.peers ==> t.peers[x] == s.peers[x].(pendingBytes := t.peers[x].pendingBytes)
  }

  lemma ReleaseBills(s: Node, p: Peer)
    ensures OnlyBills(s, Release(s, p)) && Release(s, p).flight == s.flight
  {}

  lemma ClearSettles(s: Node, q: Seq)
    ensures OnlyBills(s, ClearPending(s, q)) && Settled(s, ClearPending(s, q), q)
  {
    hide Release;
    var c := ClearPrimary(s, q);
    if q in s.flight.pending {
      ReleaseBills(s.(flight := s.flight.(pending := s.flight.pending - {q})), s.flight.pending[q].peer);
    } else {
      assert s.flight.pending - {q} == s.flight.pending;
    }
    assert OnlyBills(s, c) && c.flight == Flight(s.flight.pending - {q}, s.flight.hedge);
    hide ClearPrimary;
    if q in c.flight.hedge {
      ReleaseBills(c.(flight := c.flight.(hedge := c.flight.hedge - {q})), c.flight.hedge[q].peer);
    } else {
      assert c.flight.hedge - {q} == c.flight.hedge;
    }
  }

  // ---- a segment delivered ----

  /** `q` has been played and kept under `id`. */
  ghost predicate Plays(s: Node, t: Node, q: Seq, id: Digest, b: Bytes) {
    && t.hist.sink == s.hist.sink + [(q, b)]
    && t.win.store == s.win.store.Insert(q, id, b)
    && t.win.local.Members() == s.win.local.Members() + (if q < s.win.local.base then {} else {q})
    && t.win.deliveredTotal == s.win.deliveredTotal + (if q in s.win.local.Members() then 0 else 1)
    && t.edge == s.edge && t.park == s.park && t.asm == s.asm && t.hist.conduct == s.hist.conduct
  }

  lemma DeliverPlays(s: Node, q: Seq, id: Digest, b: Bytes, order: seq<Peer>)
    ensures var t := DeliverVerified(s, q, id, b, order);
            Plays(s, t, q, id, b) && t.peers == s.peers && t.flight == s.flight
  {
    hide PushLedger, Targets, Store.Get, Store.Insert, BufMap.Set, BufMap.Has, BufMap.Members;
    SetIsInsertion(s.win.local, q);
    HasIsMembership(s.win.local, q);
  }

  /** The sender of a good segment heals by a fiftieth, up to full reputation, unless it is banned; and if it was
      the one asked first, its speed is sampled. */
  ghost predicate Thanked(a: PeerState, b: PeerState, asked: Option<Ask>, p: Peer, now: nat, n: nat) {
    && (if a.banned then b.reputation == a.reputation else b.reputation == MinReal(a.reputation + 0.02, 1.0))
    && (if asked.Some? && asked.value.peer == p
        then b.throughput.seeded
             && (var elapsed := Max(SatSub(now, asked.value.sent), 1) as real;
                 var bps := n as real * 8000.0 / elapsed;
                 10.0 * b.throughput.value == if a.throughput.seeded then 3.0 * bps + 7.0 * a.throughput.value
                                              else 10.0 * bps)
        else b.throughput == a.throughput)
    && b == a.(reputation := b.reputation, throughput := b.throughput, pendingBytes := b.pendingBytes)
  }

  lemma CreditThanks(s: Node, p: Peer, asked: Option<Ask>, n: nat)
    ensures var t := Credit(s, p, asked, n);
            && t == s.(peers := t.peers) && t.peers.Keys == s.peers.Keys
            && (forall x :: x in s.peers && x != p ==> t.peers[x] == s.peers[x])
            && (p in s.peers ==> Thanked(s.peers[p], t.peers[p], asked, p, s.now, n)
                                 && t.peers[p].pendingBytes == s.peers[p].pendingBytes)
  {}

  /** A verified segment is played, ends the requests for it, and earns its sender thanks. */
  ghost predicate Accepted(s: Node, t: Node, p: Peer, q: Seq, id: Digest, b: Bytes) {
    && Plays(s, t, q, id, b) && Settled(s, t, q) && t.peers.Keys == s.peers.Keys
    && (p in s.peers ==> Thanked(s.peers[p], t.peers[p], AskedFor(s, q), p, s.now, |b|))
  }

  lemma AcceptIsAccepted(s: Node, p: Peer, q: Seq, id: Digest, b: Bytes, order: seq<Peer>)
    ensures Accepted(s, AcceptSegment(s, p, q, id, b, order), p, q, id, b)
  {
    hide ClearPending, DeliverVerified, Credit, BufMap.Members, Store.Insert;
    var c := ClearPending(s, q);
    ClearSettles(s, q);
    CreditThanks(c, p, AskedFor(s, q), |b|);
    DeliverPlays(Credit(c, p, AskedFor(s, q), |b|), q, id, b, order);
  }

  // ---- a chunk ----

  /** Bytes we take no notice of: held already, of an impossible size, or with no room for them. */
  predicate Ignored(s: Node, p: Peer, q: Seq, total: nat) {
    || s.win.local.Has(q) || total == 0 || total > 4 * 1024 * 1024
    || (InReach(s, p, q) && SlotRefused(s, (p, q), total))
  }

  /** We asked `p` for the segment, or it lies from the play head to a little ahead of the live edge. */
  predicate InReach(s: Node, p: Peer, q: Seq) {
    || (q in s.flight.pending && s.flight.pending[q].peer == p)
    || (q in s.flight.hedge && s.flight.hedge[q].peer == p)
    || s.win.play <= q <= s.edge.head + 16
  }

  /** Nobody in good faith would have pushed this. */
  predicate FarOff(s: Node, q: Seq) { q > s.edge.head + 64 || q + s.cfg.window < s.win.play }

  /** What comes of a whole segment `b` from `p`: played if its id is known and it has it, a forgery charged to
      `p` if its id is known and it has not, kept for later if its id is unknown and there is room. */
  ghost predicate Outcome(s: Node, t: Node, p: Peer, q: Seq, b: Bytes) {
    if q !in s.edge.ids
    then Settled(s, t, q) && t.hist == s.hist && t.win == s.win
         && t.park == (if q in s.park.parked || s.park.parkedBytes + |b| > 8 * 1024 * 1024 then s.park
                       else ParkingLot(s.park.parked[q := Parked(p, b)], s.park.parkedBytes + |b|))
    else if s.env.crypto.hash(b) == s.edge.ids[q] then Accepted(s, t, p, q, s.edge.ids[q], b)
    else exists c :: OnlyBills(s, c) && Settled(s, c, q) && Charges(c, t, p, HashFail)
  }

  lemma CompletedOutcome(s: Node, p: Peer, q: Seq, r: Reasm, order: seq<Peer>)
    requires r.Complete()
    ensures Outcome(s, Completed(s, p, q, r, order), p, q, r.Assembled())
  {
    hide AcceptSegment, Penalize, ClearPending, Accepted, Charges, Reasm.Complete, Reasm.Assembled;
    ClearSettles(s, q);
    if q in s.edge.ids {
      AcceptIsAccepted(s, p, q, s.edge.ids[q], r.Assembled(), order);
      PenalizeCharges(ClearPending(s, q), p, HashFail);
    }
  }

  /** The chunk is in its slot, and nothing else moved. */
  ghost predicate Stored(s: Node, t: Node, k: (Peer, Seq), total: nat, offset: nat, chunk: Bytes) {
    var r := (if k in s.asm.reasm then s.asm.reasm[k].r else Fresh(total)).Add(offset, chunk);
    && t == s.(asm := t.asm) && t.asm.reasm.Keys == s.asm.reasm.Keys + {k} && t.asm.reasm[k].r == r
    && (forall x :: x in s.asm.reasm && x != k ==> t.asm.reasm[x] == s.asm.reasm[x])
    && t.asm.reasm[k].created == if k in s.asm.reasm then s.asm.reasm[k].created else s.now
  }

  lemma BufferStores(s: Node, k: (Peer, Seq), total: nat, offset: nat, chunk: Bytes)
    ensures Stored(s, BufferChunk(s, k, total, offset, chunk), k, total, offset, chunk)
  {
    hide Reasm.Add, Reasm.Gain;
  }

  /** One slot is gone. */
  ghost predicate WithoutSlot(s: Node, t: Node, k: (Peer, Seq)) {
    t == s.(asm := t.asm) && t.asm.reasm == s.asm.reasm - {k}
  }

  /** What a chunk does, in full: ignored; out of reach, and charged as abuse exactly when it is far off; kept in
      its slot while the segment has gaps; and once it has none, the slot goes and the segment meets its fate. */
  lemma ChunkExactly(s: Node, p: Peer, q: Seq, total: nat, offset: nat, chunk: Bytes, order: seq<Peer>)
    ensures var t := OnSegmentData(s, p, q, total, offset, chunk, order);
            if Ignored(s, p, q, total) then t == s
            else if !InReach(s, p, q) then (if FarOff(s, q) then Charges(s, t, p, ProtocolAbuse) else t == s)
            else exists u :: Stored(s, u, (p, q), total, offset, chunk)
                   && (if u.asm.reasm[(p, q)].r.Complete()
                       then exists d :: WithoutSlot(u, d, (p, q))
                              && Outcome(d, t, p, q, u.asm.reasm[(p, q)].r.Assembled())
                       else t == u)
  {
    hide Completed, Penalize, BufferChunk, SlotRefused, Total, Restrict, Buffered, BufMap.Has, Outcome, Charges, Stored,
        Reasm.Complete, Reasm.Assembled;
    PenalizeCharges(s, p, ProtocolAbuse);
    if !Ignored(s, p, q, total) && InReach(s, p, q) {
      var u := BufferChunk(s, (p, q), total, offset, chunk);
      BufferStores(s, (p, q), total, offset, chunk);
      SlotThere(s, u, (p, q), total, offset, chunk);
      var d := DropSlots(u, {(p, q)});
      assert WithoutSlot(u, d, (p, q));
      if u.asm.reasm[(p, q)].r.Complete() { CompletedOutcome(d, p, q, u.asm.reasm[(p, q)].r, order); }
    }
  }

  lemma SlotThere(s: Node, u: Node, k: (Peer, Seq), total: nat, offset: nat, chunk: Bytes)
    requires Stored(s, u, k, total, offset, chunk)
    ensures k in u.asm.reasm
  {}

  // ---- bytes whose id comes later ----

  ghost predicate NoLongerWaits(s: Node, t: Node, q: Seq) {
    t == s.(park := t.park) && t.park.parked == s.park.parked - {q}
  }

  /** An id for a segment whose bytes wait: if it is not held yet they are played or their sender is charged with a
      forgery; either way they no longer wait. */
  lemma EdgeExactly(s: Node, q: Seq, id: Digest, order: seq<Peer>)
    ensures var (r, t) := (Record(s, q, id), ApplyEdge(s, q, id, order));
            && r == s.(edge := r.edge, hist := r.hist) && r.edge.ids == s.edge.ids[q := id]
            && r.edge.head == (if s.edge.head < q then q else s.edge.head)
            && (if q !in s.park.parked then t == r
                else var (p, b) := (s.park.parked[q].peer, s.park.parked[q].raw);
                     exists u :: NoLongerWaits(r, u, q)
                       && (if s.win.local.Has(q) then t == u
                           else if s.env.crypto.hash(b) == id then Accepted(u, t, p, q, id, b)
                           else Charges(u, t, p, HashFail)))
  {
    hide AcceptSegment, Penalize, BufMap.Has, Accepted, Charges;
    if q in s.park.parked {
      var r := Record(s, q, id);
      var u, p, b := Unpark(r, q), s.park.parked[q].peer, s.park.parked[q].raw;
      assert NoLongerWaits(r, u, q);
      AcceptIsAccepted(u, p, q, id, b, order);
      PenalizeCharges(u, p, HashFail);
    }
  }

  // ---- the durable floor ----

  /** A floor fetch that succeeds with the bytes of a segment still missing has it played and ends the requests for
      it; any other changes nothing but that it is over. */
  lemma FloorExactly(s: Node, q: Seq, bytes: Option<Bytes>, order: seq<Peer>)
    requires q in s.inflight
    ensures var (t, u) := (OnFallback(s, q, bytes, order), s.(inflight := s.inflight - {q}));
            if bytes.Some? && !s.win.local.Has(q) && s.env.crypto.hash(bytes.value) == s.inflight[q]
            then Plays(u, t, q, s.inflight[q], bytes.value) && Settled(u, t, q) && t.inflight == u.inflight
            else t == u
  {
    hide ClearPending, DeliverVerified, BufMap.Has, BufMap.Members, Store.Insert;
    var u := s.(inflight := s.inflight - {q});
    if bytes.Some? {
      ClearSettles(u, q);
      DeliverPlays(ClearPending(u, q), q, s.inflight[q], bytes.value, order);
      FloorDone(ClearPending(u, q), q, s.inflight[q], bytes.value, order);
    }
  }

  lemma FloorDone(s: Node, q: Seq, id: Digest, b: Bytes, order: seq<Peer>)
    ensures DeliverVerified(s, q, id, b, order).inflight == s.inflight
  {
    hide PushLedger, Targets, Store.Get, Store.Insert, BufMap.Set, BufMap.Has;
  }

  // ---- deadlines ----

  /** A request two seconds old is over, its slot is dropped, and the peer first asked is charged for it; a younger
      one stands. */
  lemma ExpiryExactly(s: Node, q: Seq)
    requires q in s.flight.pending
    ensures var (t, a) := (ExpireOne(s, q), s.flight.pending[q]);
            if s.now < a.sent + 2_000 then t == s
            else exists d, c :: && OnlyBills(s, d) && Settled(s, d, q) && WithoutSlot(d, c, (a.peer, q))
                                && Charges(c, t, a.peer, Timeout)
  {
    hide ClearPending, Penalize, Total, Restrict, Buffered, Charges;
    if Stale(s, q) {
      var a, d := s.flight.pending[q], ClearPending(s, q);
      ClearSettles(s, q);
      var c := DropSlots(d, {(a.peer, q)});
      assert WithoutSlot(d, c, (a.peer, q));
      PenalizeCharges(c, a.peer, Timeout);
    }
  }

  // ---- messages over their limit ----

  predicate OverLimit(msg: Msg) {
    match msg
    case Want(seqs) => |seqs| > 32
    case BufferMapMsg(_, bits) => |bits| > 8 * 1024
    case PeerGossip(n) => n > 256
    case PresenceGossip(n) => n > 64
    case _ => false
  }

  /** A message over its limit is charged as abuse and does nothing else; no other message is charged. */
  lemma AbuseExactly(s: Node, p: Peer, msg: Msg)
    requires !msg.SegmentData? && !msg.EdgeAnnounce?
    ensures var t := OnChatter(s, p, msg);
            if OverLimit(msg) then Charges(s, t, p, ProtocolAbuse)
            else forall x :: x in s.peers ==>
                   && x in t.peers && t.peers[x].reputation == s.peers[x].reputation
                   && t.peers[x].banned == s.peers[x].banned
  {
    hide Penalize, Charges, Enqueue, FromBytes, BufMap.Set, Ewma.Update;
    PenalizeCharges(s, p, ProtocolAbuse);
  }

  // ---- the upload meter between sends ----

  /** What `dt` milliseconds add to the tokens at `budget` bits per second: an eighth of it in bytes per second, up to
      half a second's worth or two segments, whichever is more. */
  function Refilled(tokens: real, budget: nat, segBytes: nat, dt: nat): real {
    MinReal(tokens + budget as real * dt as real / 8000.0, MaxReal(budget as real / 16.0, 2.0 * segBytes as real))
  }

  lemma RefillExactly(s: Node)
    requires s.cfg.budget > 0 && s.now >= s.meter.tokenMs
    ensures TickRefill(s).meter.tokens
            == Refilled(s.meter.tokens, s.cfg.budget, s.env.segBytes, s.now - s.meter.tokenMs)
    ensures TickRefill(s).meter.tokenMs == s.now
  {
    var (b, dt) := (s.cfg.budget as real, (s.now - s.meter.tokenMs) as real);
    assert b / 8.0 * (dt / 1000.0) == b * dt / 8000.0;
    assert b / 8.0 * 0.5 == b / 16.0;
  }

  /** However the time is cut into ticks, an idle meter fills the same. */
  lemma RefillComposes(tokens: real, budget: nat, segBytes: nat, a: nat, b: nat)
    ensures Refilled(Refilled(tokens, budget, segBytes, a), budget, segBytes, b)
            == Refilled(tokens, budget, segBytes, a + b)
  {
    var r := budget as real;
    assert r * (a + b) as real / 8000.0 == r * a as real / 8000.0 + r * b as real / 8000.0;
    assert r * b as real >= 0.0;
  }

  // ---- the window ----

  /** The window's lower edge: `window` behind the play head or the newest segment held, whichever is less, and
      never below where it was. */
  ghost function LowerEdge(s: Node): Seq {
    var anchor := if s.win.local.Highest().Some? && s.win.local.Highest().value < s.win.play
                  then s.win.local.Highest().value else s.win.play;
    Max(s.win.floor, SatSub(anchor, s.cfg.window))
  }

  /** On a live stream a node that does not publish it forgets exactly what lies below the edge: of the segments it
      holds, of the ids it knows and of the store. */
  lemma PruneExactly(s: Node)
    ensures var t := TickPrune(s);
            if s.cfg.live && !s.cfg.role.Publisher?
            then && t.win.floor == LowerEdge(s)
                 && (t.win.floor > s.win.floor ==>
                       && t.win.local.Members() == (set q | q in s.win.local.Members() && q >= LowerEdge(s))
                       && t.edge.ids == (map q | q in s.edge.ids && q >= LowerEdge(s) :: s.edge.ids[q])
                       && t.win.store == s.win.store.PruneBelow(LowerEdge(s)))
                 && (t.win.floor == s.win.floor ==> t == s)
            else t == s
  {
    hide BufMap.Members, BufMap.Highest, Store.PruneBelow, BufMap.PruneBelow;
    PruneIsFilter(s.win.local, LowerEdge(s));
  }

  // ---- what the picker is told ----

  /** The picker weighs exactly the unbanned peers of the table: an unmeasured one at five megabits per second and
      eighty milliseconds. */
  lemma {:induction false} ViewsExactly(peers: map<Peer, PeerState>, order: seq<Peer>)
    ensures forall v :: v in ViewsOf(peers, order) <==>
              && v.id in order && v.id in peers && !peers[v.id].banned
              && (var st := peers[v.id];
                  && v.buffer == st.buffer && v.pendingBytes == st.pendingBytes && v.reputation == st.reputation
                  && v.throughput == (if st.throughput.seeded then st.throughput.value else 5_000_000.0)
                  && v.rtt == (if st.rtt.seeded then st.rtt.value else 80.0))
    decreases |order|
  {
    if order != [] {
      ViewsExactly(peers, order[..|order| - 1]);
      assert order == order[..|order| - 1] + [order[|order| - 1]];
    }
  }
}
