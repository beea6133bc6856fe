/** What each message and each tick does to one peer: what it has told us, its subscription, its place in our
    upload queue, and who gets what a segment costs to send. */
module MeshEffects {
  import opened Common
  import opened BufferMaps
  import opened Reassembly
  import opened SegmentStores
  import opened Picker
  import opened Wire
  import opened MeshState

  // ---- what a peer has told us ----

  /** What a peer has told us, whether we withhold upload from it, and what it waits for. */
  datatype Word = Word(chokedBy: bool, buffer: BufMap, rtt: Ewma, choked: bool, queue: seq<Seq>)

  function WordOf(st: PeerState): Word { Word(st.chokedBy, st.buffer, st.rtt, st.choked, st.queue) }

  /** `p` is banned by the step. */
  ghost predicate NewlyBanned(p: Peer, s: Node, t: Node) {
    p in s.peers && !s.peers[p].banned && p in t.peers && t.peers[p].banned
  }

  /** `p` is in the table as before, with the same word; its subscription ends only with a ban. */
  ghost predicate Kept(p: Peer, s: Node, t: Node) {
    && (p in t.peers <==> p in s.peers)
    && (p in s.peers ==> WordOf(t.peers[p]) == WordOf(s.peers[p]) && (s.peers[p].banned ==> t.peers[p].banned))
    && (p in t.subscribers <==> p in s.subscribers && !NewlyBanned(p, s, t))
  }

  lemma KeptTrans(p: Peer, a: Node, b: Node, c: Node)
    requires Kept(p, a, b) && Kept(p, b, c)
    ensures Kept(p, a, c)
  {}

  lemma SamePeersKept(p: Peer, s: Node, t: Node)
    requires t.peers == s.peers && t.subscribers == s.subscribers
    ensures Kept(p, s, t)
  {}

  lemma ReleaseKept(p: Peer, s: Node, x: Peer)
    ensures Kept(p, s, Release(s, x))
  {}

  lemma ClearKept(p: Peer, s: Node, q: Seq)
    ensures Kept(p, s, ClearPending(s, q))
  {
    hide Release, Kept;
    var c := ClearPrimary(s, q);
    SamePeersKept(p, s, s);
    SamePeersKept(p, c, c);
    if q in s.flight.pending {
      var t := s.(flight := s.flight.(pending := s.flight.pending - {q}));
      SamePeersKept(p, s, t);
      ReleaseKept(p, t, s.flight.pending[q].peer);
      KeptTrans(p, s, t, c);
    }
    if q in c.flight.hedge {
      var t := c.(flight := c.flight.(hedge := c.flight.hedge - {q}));
      SamePeersKept(p, c, t);
      ReleaseKept(p, t, c.flight.hedge[q].peer);
      KeptTrans(p, c, t, ClearHedge(c, q));
    }
    KeptTrans(p, s, c, ClearPending(s, q));
  }

  lemma PenalizeKept(p: Peer, s: Node, x: Peer, why: Penalty)
    ensures Kept(p, s, Penalize(s, x, why))
  {
    hide Total, Restrict, SlotsOf, Decay, Buffered;
  }

  lemma DeliverSame(s: Node, q: Seq, id: Digest, b: Bytes, order: seq<Peer>)
    ensures var t := DeliverVerified(s, q, id, b, order); t.peers == s.peers && t.subscribers == s.subscribers
  {
    hide PushLedger, Targets, Store.Get, Store.Insert, BufMap.Set, BufMap.Has;
  }

  lemma CreditKept(p: Peer, s: Node, x: Peer, asked: Option<Ask>, n: nat)
    ensures Kept(p, s, Credit(s, x, asked, n))
  {
    hide Ewma.Update;
  }

  lemma AcceptKept(p: Peer, s: Node, x: Peer, q: Seq, id: Digest, b: Bytes, order: seq<Peer>)
    ensures Kept(p, s, AcceptSegment(s, x, q, id, b, order))
  {
    hide ClearPending, DeliverVerified, Credit, Kept;
    var c := ClearPending(s, q);
    var d := Credit(c, x, AskedFor(s, q), |b|);
    ClearKept(p, s, q);
    CreditKept(p, c, x, AskedFor(s, q), |b|);
    DeliverSame(d, q, id, b, order);
    SamePeersKept(p, d, DeliverVerified(d, q, id, b, order));
    KeptTrans(p, s, c, d);
    KeptTrans(p, s, d, DeliverVerified(d, q, id, b, order));
  }

  lemma ApplyKept(p: Peer, s: Node, q: Seq, id: Digest, order: seq<Peer>)
    ensures Kept(p, s, ApplyEdge(s, q, id, order))
  {
    hide AcceptSegment, Penalize, BufMap.Has, Kept;
    var r := Record(s, q, id);
    SamePeersKept(p, s, r);
    if q in r.park.parked {
      var u, x, raw := Unpark(r, q), r.park.parked[q].peer, r.park.parked[q].raw;
      SamePeersKept(p, s, u);
      SamePeersKept(p, u, u);
      PenalizeKept(p, u, x, HashFail);
      AcceptKept(p, u, x, q, id, raw, order);
      KeptTrans(p, s, u, ApplyEdge(s, q, id, order));
    }
  }

  lemma CompletedKept(p: Peer, s: Node, x: Peer, q: Seq, r: Reasm, order: seq<Peer>)
    ensures Kept(p, s, Completed(s, x, q, r, order))
  {
    hide AcceptSegment, Penalize, ClearPending, Reasm.Complete, Reasm.Assembled, Kept;
    var c := ClearPending(s, q);
    ClearKept(p, s, q);
    PenalizeKept(p, c, x, HashFail);
    KeptTrans(p, s, c, Penalize(c, x, HashFail));
    if q in s.edge.ids {
      AcceptKept(p, s, x, q, s.edge.ids[q], r.Assembled(), order);
    } else if r.Complete() {
      SamePeersKept(p, c, Park(c, x, q, r.Assembled()));
      KeptTrans(p, s, c, Park(c, x, q, r.Assembled()));
    }
  }

  lemma SegmentDataKept(p: Peer, s: Node, x: Peer, q: Seq, total: nat, offset: nat, chunk: Bytes, order: seq<Peer>)
    ensures Kept(p, s, OnSegmentData(s, x, q, total, offset, chunk, order))
  {
    hide Completed, Penalize, SlotRefused, Spray, Asked, InPushWindow, Total, Restrict, Buffered, BufMap.Has, Kept;
    PenalizeKept(p, s, x, ProtocolAbuse);
    SamePeersKept(p, s, s);
    var s1 := BufferChunk(s, (x, q), total, offset, chunk);
    SamePeersKept(p, s, s1);
    var d := DropSlots(s1, {(x, q)});
    SamePeersKept(p, s, d);
    CompletedKept(p, d, x, q, s1.asm.reasm[(x, q)].r, order);
    KeptTrans(p, s, d, Completed(d, x, q, s1.asm.reasm[(x, q)].r, order));
  }

  /** Another peer's message changes nothing here. */
  lemma OtherChatterKept(p: Peer, s: Node, x: Peer, msg: Msg)
    requires x != p
    ensures Kept(p, s, OnChatter(s, x, msg))
  {
    hide Penalize, Enqueue, FromBytes, Noted;
    PenalizeKept(p, s, x, ProtocolAbuse);
  }

  // ---- the peer's own messages ----

  /** What is known of a peer after hearing `msg` from it. */
  ghost predicate Hears(a: Word, b: Word, msg: Msg, now: nat) {
    && b.choked == a.choked
    && (b.chokedBy <==> msg.Choke? || (a.chokedBy && !msg.Unchoke?))
    && b.buffer.Members() == (match msg
         case Have(q) => a.buffer.Members() + (if q < a.buffer.base then {} else {q})
         case BufferMapMsg(base, bits) => if |bits| > 8192 then a.buffer.Members() else FromBytes(base, bits).Members()
         case _ => a.buffer.Members())
    && (if msg.Pong? then b.rtt.seeded && Blends(b.rtt.value, a.rtt, MaxReal(SatSub(now, msg.sentMs) as real, 1.0))
        else b.rtt == a.rtt)
    && (if msg.Want? && |msg.seqs| <= 32 && !a.choked then Queues(a.queue, msg.seqs, b.queue) else b.queue == a.queue)
  }

  /** The first sample counts whole, later ones three parts in ten. */
  ghost predicate Blends(value: real, old_: Ewma, sample: real) {
    10.0 * value == if old_.seeded then 3.0 * sample + 7.0 * old_.value else 10.0 * sample
  }

  /** The queue as it was, followed by what was asked for and was not in it, each once, until it is full. */
  ghost predicate Queues(queue: seq<Seq>, seqs: seq<Seq>, more: seq<Seq>) {
    && |queue| <= |more| && more[..|queue|] == queue
    && (|more| <= 64 || more == queue)
    && (forall x :: x in seqs ==> x in more || |more| >= 64)
    && (forall x :: x in more ==> x in queue || x in seqs)
    && (NoDup(queue) ==> NoDup(more))
  }

  lemma {:induction false} EnqueueQueues(queue: seq<Seq>, seqs: seq<Seq>)
    ensures Queues(queue, seqs, Enqueue(queue, seqs))
    decreases |seqs|
  {
    if seqs != [] && |queue| < SERVE_QUEUE_MAX {
      var next := if seqs[0] in queue then queue else queue + [seqs[0]];
      EnqueueQueues(next, seqs[1..]);
      var more := Enqueue(next, seqs[1..]);
      assert more[..|queue|] == more[..|next|][..|queue|];
      forall x | x in seqs ensures x in more || |more| >= 64 {
        if x == seqs[0] { NextHas(next, more, x); } else { assert x in seqs[1..]; }
      }
    }
  }

  lemma NextHas(next: seq<Seq>, more: seq<Seq>, x: Seq)
    requires x in next && |next| <= |more| && more[..|next|] == next
    ensures x in more
  {}

  /** A peer's message, while it is not banned, does exactly what it says to what we know of that peer. */
  lemma OwnChatterHeard(s: Node, p: Peer, msg: Msg)
    requires p in s.peers && !s.peers[p].banned && !msg.SegmentData? && !msg.EdgeAnnounce?
    ensures var t := OnChatter(s, p, msg);
            p in t.peers && Hears(WordOf(s.peers[p]), WordOf(t.peers[p]), msg, s.now)
  {
    hide Penalize, Enqueue, BufMap.Members, FromBytes, BufMap.Set;
    PenalizeKept(p, s, p, ProtocolAbuse);
    match msg
    case Have(q) => SetIsInsertion(s.peers[p].buffer, q);
    case Want(seqs) => hide Queues; EnqueueQueues(s.peers[p].queue, seqs);
    case _ =>
  }

  /** And it subscribes or unsubscribes the peer exactly when it says so. */
  lemma OwnChatterSubscribes(s: Node, p: Peer, msg: Msg)
    requires !(p in s.peers && s.peers[p].banned) && !msg.SegmentData? && !msg.EdgeAnnounce?
    ensures var t := OnChatter(s, p, msg);
            p in t.subscribers <==>
            msg.Subscribe? || (p in s.subscribers && !msg.Unsubscribe? && !NewlyBanned(p, s, t))
  {
    hide Penalize, Enqueue, FromBytes, BufMap.Set, Ewma.Update;
    PenalizeKept(p, s, p, ProtocolAbuse);
  }

  // ---- serving queues ----

  /** What serving `q` costs: its bytes from memory, the nominal size from disk, nothing if it is not held. */
  function Cost(store: Store, segBytes: nat, q: Seq): nat {
    match store.Locate(q)
    case Memory => |store.mem[q]|
    case Disk(_) => segBytes
    case Absent => 0
  }

  ghost function Costs(store: Store, segBytes: nat, qs: seq<Seq>): nat {
    if qs == [] then 0 else Cost(store, segBytes, qs[0]) + Costs(store, segBytes, qs[1..])
  }

  /** The bytes sent at once: a segment on disk is read and sent later, off the loop. */
  ghost function FromMemory(store: Store, qs: seq<Seq>): nat {
    if qs == [] then 0 else (if qs[0] in store.mem then |store.mem[qs[0]]| else 0) + FromMemory(store, qs[1..])
  }

  /** The first `n` of the queue are served: each while the peer's allowance for the tick lasted and, if it is
      held, the tokens paid for it; the next, if any, finds one of the two used up. */
  ghost predicate Serves(store: Store, linked: bool, metered: bool, segBytes: nat, served: nat, v: Serving, w: Serving,
                         n: nat) {
    && n <= |v.queue| && w.queue == v.queue[n..]
    && w.tokens == (if metered then v.tokens - Costs(store, segBytes, v.queue[..n]) as real else v.tokens)
    && w.sent == v.sent + (if linked then FromMemory(store, v.queue[..n]) else 0)
    && (forall k :: 0 <= k < n ==> Served(store, metered, segBytes, served, v, k))
    && (n < |v.queue| ==> !Served(store, metered, segBytes, served, v, n))
  }

  ghost predicate Served(store: Store, metered: bool, segBytes: nat, served: nat, v: Serving, k: nat)
    requires k < |v.queue|
  {
    && served + Costs(store, segBytes, v.queue[..k]) < 262_144
    && (metered && !store.Locate(v.queue[k]).Absent? ==>
          v.tokens >= Costs(store, segBytes, v.queue[..k]) as real + Cost(store, segBytes, v.queue[k]) as real)
  }

  lemma {:induction false} ServeQueueServes(store: Store, linked: bool, metered: bool, segBytes: nat, served: nat,
                                            v: Serving) returns (n: nat)
    ensures Serves(store, linked, metered, segBytes, served, v,
                   ServeQueue(store, linked, metered, segBytes, served, v), n)
    decreases |v.queue|
  {
    hide Store.Locate;
    if v.queue == [] || !Served(store, metered, segBytes, served, v, 0) {
      n := 0;
      assert v.queue[..0] == [] && v.queue[0..] == v.queue;
      Unserved(store, linked, metered, segBytes, served, v);
    } else {
      var c := Cost(store, segBytes, v.queue[0]);
      var next := AfterFirst(store, linked, metered, segBytes, v);
      FirstServed(store, linked, metered, segBytes, served, v);
      hide ServeQueue, Cost;
      var m := ServeQueueServes(store, linked, metered, segBytes, served + c, next);
      n := m + 1;
      ServesOne(store, linked, metered, segBytes, served, v,
                ServeQueue(store, linked, metered, segBytes, served + c, next), m);
    }
  }

  ghost function AfterFirst(store: Store, linked: bool, metered: bool, segBytes: nat, v: Serving): Serving
    requires v.queue != []
  {
    Serving(v.queue[1..],
            if metered then v.tokens - Cost(store, segBytes, v.queue[0]) as real else v.tokens,
            if linked && v.queue[0] in store.mem then v.sent + |store.mem[v.queue[0]]| else v.sent)
  }

  lemma Unserved(store: Store, linked: bool, metered: bool, segBytes: nat, served: nat, v: Serving)
    requires v.queue == [] || !Served(store, metered, segBytes, served, v, 0)
    ensures ServeQueue(store, linked, metered, segBytes, served, v) == v
  {
    if v.queue != [] { assert Costs(store, segBytes, v.queue[..0]) == 0; }
  }

  lemma FirstServed(store: Store, linked: bool, metered: bool, segBytes: nat, served: nat, v: Serving)
    requires v.queue != [] && Served(store, metered, segBytes, served, v, 0)
    ensures ServeQueue(store, linked, metered, segBytes, served, v) ==
            ServeQueue(store, linked, metered, segBytes, served + Cost(store, segBytes, v.queue[0]),
                       AfterFirst(store, linked, metered, segBytes, v))
  {
    assert Costs(store, segBytes, v.queue[..0]) == 0;
    match store.Locate(v.queue[0])
    case Memory =>
      assert AfterFirst(store, linked, metered, segBytes, v)
          == Serving(v.queue[1..], if metered then v.tokens - |store.mem[v.queue[0]]| as real else v.tokens,
                     if linked then v.sent + |store.mem[v.queue[0]]| else v.sent);
    case Disk(_) =>
      assert AfterFirst(store, linked, metered, segBytes, v)
          == v.(queue := v.queue[1..], tokens := if metered then v.tokens - segBytes as real else v.tokens);
    case Absent => assert AfterFirst(store, linked, metered, segBytes, v) == v.(queue := v.queue[1..]);
  }

  lemma PrefixCosts(store: Store, segBytes: nat, qs: seq<Seq>, k: nat)
    requires 0 < k <= |qs|
    ensures Costs(store, segBytes, qs[..k]) == Cost(store, segBytes, qs[0]) + Costs(store, segBytes, qs[1..][..k - 1])
    ensures FromMemory(store, qs[..k])
            == (if qs[0] in store.mem then |store.mem[qs[0]]| else 0) + FromMemory(store, qs[1..][..k - 1])
  {
    assert qs[..k][1..] == qs[1..][..k - 1];
  }

  lemma ServedShifts(store: Store, linked: bool, metered: bool, segBytes: nat, served: nat, v: Serving, k: nat)
    requires 0 < k < |v.queue|
    ensures Served(store, metered, segBytes, served, v, k) <==>
            Served(store, metered, segBytes, served + Cost(store, segBytes, v.queue[0]),
                   AfterFirst(store, linked, metered, segBytes, v), k - 1)
  {
    hide Store.Locate, Cost, Costs, FromMemory;
    PrefixCosts(store, segBytes, v.queue, k);
  }

  lemma ServesOne(store: Store, linked: bool, metered: bool, segBytes: nat, served: nat, v: Serving, w: Serving, m: nat)
    requires v.queue != [] && Served(store, metered, segBytes, served, v, 0)
    requires Serves(store, linked, metered, segBytes, served + Cost(store, segBytes, v.queue[0]),
                    AfterFirst(store, linked, metered, segBytes, v), w, m)
    ensures Serves(store, linked, metered, segBytes, served, v, w, m + 1)
  {
    PrefixCosts(store, segBytes, v.queue, m + 1);
    forall k | 0 < k < |v.queue| ensures Served(store, metered, segBytes, served, v, k) <==>
        Served(store, metered, segBytes, served + Cost(store, segBytes, v.queue[0]),
               AfterFirst(store, linked, metered, segBytes, v), k - 1) {
      ServedShifts(store, linked, metered, segBytes, served, v, k);
    }
    hide Served, Store.Locate, Cost, Costs, FromMemory;
    assert v.queue[1..][m..] == v.queue[m + 1..];
    forall k | 0 <= k < m + 1 ensures Served(store, metered, segBytes, served, v, k) {
      if k > 0 {
        assert Served(store, metered, segBytes, served + Cost(store, segBytes, v.queue[0]),
                      AfterFirst(store, linked, metered, segBytes, v), k - 1);
      }
    }
  }

  /** Serving one peer: nothing while we withhold upload from it; otherwise its queue drains from the front. */
  lemma ServePeerExactly(s: Node, p: Peer) returns (n: nat)
    requires p in s.peers
    ensures s.peers[p].choked ==> ServePeer(s, p) == s
    ensures var t := ServePeer(s, p);
            && t.peers.Keys == s.peers.Keys && (forall x :: x in s.peers && x != p ==> t.peers[x] == s.peers[x])
            && t.peers[p] == s.peers[p].(queue := t.peers[p].queue)
            && (!s.peers[p].choked ==>
                  Serves(s.win.store, p in s.links, s.cfg.budget > 0, s.env.segBytes, 0,
                         Serving(s.peers[p].queue, s.meter.tokens, s.hist.sent),
                         Serving(t.peers[p].queue, t.meter.tokens, t.hist.sent), n))
  {
    n := 0;
    if !s.peers[p].choked {
      n := ServeQueueServes(s.win.store, p in s.links, s.cfg.budget > 0, s.env.segBytes, 0,
                            Serving(s.peers[p].queue, s.meter.tokens, s.hist.sent));
    }
    hide ServeQueue, Serves;
  }

  // ---- pushing a segment ----

  /** A new segment is meant for exactly the subscribers we serve that are not known to hold it. */
  lemma {:induction false} TargetsExactly(s: Node, q: Seq, order: seq<Peer>)
    ensures forall p :: p in Targets(s, q, order) <==>
              p in order && (p in s.peers ==> !s.peers[p].choked && q !in s.peers[p].buffer.Members())
    ensures NoDup(order) ==> NoDup(Targets(s, q, order))
    decreases |order|
  {
    hide BufMap.Has, BufMap.Members;
    if order != [] {
      TargetsExactly(s, q, order[1..]);
      if order[0] in s.peers { HasIsMembership(s.peers[order[0]].buffer, q); }
    }
  }

  ghost function LinkedIn(links: set<Peer>, ps: seq<Peer>): nat {
    if ps == [] then 0 else (if ps[0] in links then 1 else 0) + LinkedIn(links, ps[1..])
  }

  /** What `n` copies of a segment come to. */
  function Bill(n: nat, size: nat): nat { n * size }

  /** The first `n` targets get the segment: every one the tokens pay for, in order, and no more. */
  ghost predicate Pushes(links: set<Peer>, metered: bool, size: nat, targets: seq<Peer>, tokens: real, sent: nat,
                         after: (real, nat), n: nat) {
    && n <= |targets|
    && after.0 == (if metered then tokens - Bill(n, size) as real else tokens)
    && after.1 == sent + Bill(LinkedIn(links, targets[..n]), size)
    && (metered && n > 0 ==> tokens >= Bill(n, size) as real)
    && (n < |targets| ==> metered && tokens < Bill(n + 1, size) as real)
  }

  lemma {:induction false} LedgerPushes(links: set<Peer>, metered: bool, size: nat, targets: seq<Peer>, tokens: real,
                                        sent: nat) returns (n: nat)
    ensures Pushes(links, metered, size, targets, tokens, sent,
                   PushLedger(links, metered, size, targets, tokens, sent), n)
    decreases |targets|
  {
    if targets == [] || (metered && tokens < size as real) {
      n := 0;
      assert targets[..0] == [];
      Times(0, size);
    } else {
      var left := if metered then tokens - size as real else tokens;
      var more := if targets[0] in links then sent + size else sent;
      var m := LedgerPushes(links, metered, size, targets[1..], left, more);
      n := m + 1;
      PushesOne(links, metered, size, targets, tokens, sent,
          PushLedger(links, metered, size, targets[1..], left, more), m);
    }
  }

  lemma PushesOne(links: set<Peer>, metered: bool, size: nat, targets: seq<Peer>, tokens: real, sent: nat,
                  after: (real, nat), m: nat)
    requires targets != [] && (metered ==> tokens >= size as real)
    requires Pushes(links, metered, size, targets[1..], if metered then tokens - size as real else tokens,
                    if targets[0] in links then sent + size else sent, after, m)
    ensures Pushes(links, metered, size, targets, tokens, sent, after, m + 1)
  {
    assert targets[..m + 1][1..] == targets[1..][..m];
    var k := LinkedIn(links, targets[1..][..m]);
    hide Bill;
    Times(m, size);
    Times(m + 1, size);
    Times(k, size);
  }

  lemma Times(n: nat, size: nat)
    ensures Bill(n + 1, size) == Bill(n, size) + size && Bill(0, size) == 0 && Bill(1, size) == size
  {}

  /** A push reaches exactly the targets the tokens pay for, in the order they are walked, at the segment's size
      each; without a meter, all of them. */
  lemma PushExactly(s: Node, q: Seq, order: seq<Peer>) returns (n: nat)
    ensures var (t, b) := (PushToSubscribers(s, q, order), s.win.store.Get(q));
            if s.subscribers == {} || b.None? then t == s
            else Pushes(s.links, s.cfg.budget > 0, |b.value|, Targets(s, q, order), s.meter.tokens, s.hist.sent,
                        (t.meter.tokens, t.hist.sent), n)
  {
    hide Targets, Store.Get, Pushes, PushLedger;
    n := 0;
    if s.win.store.Get(q).Some? {
      n := LedgerPushes(s.links, s.cfg.budget > 0, |s.win.store.Get(q).value|, Targets(s, q, order), s.meter.tokens,
                        s.hist.sent);
      var t := PushToSubscribers(s, q, order);
      if s.subscribers != {} {
        assert (t.meter.tokens, t.hist.sent)
            == PushLedger(s.links, s.cfg.budget > 0, |s.win.store.Get(q).value|, Targets(s, q, order), s.meter.tokens,
                          s.hist.sent);
      }
    }
  }

  // ---- the tick ----

  /** `p` stays, told us nothing, and its queue only drains, not at all while we withhold upload from it. */
  ghost predicate Drains(p: Peer, s: Node, t: Node)
    requires p in s.peers
  {
    && p in t.peers && s.subscribers == t.subscribers && (s.peers[p].banned <==> t.peers[p].banned)
    && WordOf(t.peers[p]).(queue := []) == WordOf(s.peers[p]).(queue := [])
    && (exists n :: 0 <= n <= |s.peers[p].queue| && t.peers[p].queue == s.peers[p].queue[n..])
    && (s.peers[p].choked ==> t.peers[p].queue == s.peers[p].queue)
  }

  lemma DrainsSelf(p: Peer, s: Node, t: Node)
    requires p in s.peers && t.peers == s.peers && t.subscribers == s.subscribers
    ensures Drains(p, s, t)
  {
    assert s.peers[p].queue[0..] == s.peers[p].queue;
  }

  lemma {:induction false} ServeDrains(p: Peer, s: Node, order: seq<Peer>)
    requires p in s.peers
    ensures Drains(p, s, TickServe(s, order))
    decreases |order|
  {
    if order == [] {
      DrainsSelf(p, s, s);
    } else {
      var r, x := TickServe(s, order[..|order| - 1]), order[|order| - 1];
      ServeDrains(p, s, order[..|order| - 1]);
      hide TickServe, ServeQueue;
      if x == p {
        var n := ServePeerExactly(r, p);
        hide Served;
        DrainsOn(s.peers[p].queue, r.peers[p].queue, ServePeer(r, p).peers[p].queue, n, r.peers[p].choked);
      }
    }
  }

  lemma DrainsOn(a: seq<Seq>, b: seq<Seq>, c: seq<Seq>, n: nat, waits: bool)
    requires exists k :: 0 <= k <= |a| && b == a[k..]
    requires if waits then c == b else n <= |b| && c == b[n..]
    ensures exists k :: 0 <= k <= |a| && c == a[k..]
  {
    var k :| 0 <= k <= |a| && b == a[k..];
    if !waits { assert a[k..][n..] == a[k + n..]; }
  }

  lemma {:induction false} ExpireKept(p: Peer, s: Node, order: seq<Seq>)
    ensures Kept(p, s, TickExpire(s, order))
    decreases |order|
  {
    hide ExpireOne, Kept;
    SamePeersKept(p, s, s);
    if order != [] {
      var r := TickExpire(s, order[..|order| - 1]);
      ExpireKept(p, s, order[..|order| - 1]);
      ExpireOneKept(p, r, order[|order| - 1]);
      KeptTrans(p, s, r, ExpireOne(r, order[|order| - 1]));
    }
  }

  lemma ExpireOneKept(p: Peer, s: Node, q: Seq)
    ensures Kept(p, s, ExpireOne(s, q))
  {
    hide ClearPending, Penalize, Total, Restrict, Buffered, Kept;
    SamePeersKept(p, s, s);
    if Stale(s, q) {
      var x := s.flight.pending[q].peer;
      var c := ClearPending(s, q);
      ClearKept(p, s, q);
      var d := DropSlots(c, {(x, q)});
      SamePeersKept(p, c, d);
      KeptTrans(p, s, c, d);
      PenalizeKept(p, d, x, Timeout);
      KeptTrans(p, s, d, Penalize(d, x, Timeout));
    }
  }

  lemma {:induction false} IssueKept(p: Peer, s: Node, rs: seq<Request>)
    ensures Kept(p, s, IssueAll(s, rs))
    decreases |rs|
  {
    hide Issue, Kept;
    SamePeersKept(p, s, s);
    if rs != [] {
      var r := IssueAll(s, rs[..|rs| - 1]);
      IssueKept(p, s, rs[..|rs| - 1]);
      IssueOneKept(p, r, rs[|rs| - 1]);
      KeptTrans(p, s, r, Issue(r, rs[|rs| - 1]));
    }
  }

  lemma IssueOneKept(p: Peer, s: Node, r: Request)
    ensures Kept(p, s, Issue(s, r))
  {}

  /** It is time to review the upload slots: the first time there are peers, and then every five seconds. */
  predicate Due(s: Node, dt: nat) { s.meter.chokeMs == 0 || SatSub(s.now + dt, s.meter.chokeMs) >= 5_000 }

  /** The slots have been reviewed: everyone outside `unchoked` is withheld upload, everyone in it is served. */
  ghost predicate Reviewed(p: Peer, s: Node, t: Node, unchoked: set<Peer>, review: bool) {
    && (p in t.peers <==> p in s.peers) && t.subscribers == s.subscribers
    && (p in s.peers ==>
          && t.peers[p].banned == s.peers[p].banned
          && WordOf(t.peers[p]) == WordOf(s.peers[p]).(choked := if review then p !in unchoked else s.peers[p].choked))
  }

  lemma ChokeReviews(p: Peer, s: Node, unchoked: set<Peer>)
    ensures Reviewed(p, s, TickChoke(s, unchoked), unchoked, s.cfg.role.Viewer? && Due(s, 0))
  {}

  lemma UpkeepReviews(p: Peer, s: Node, t: TickInput)
    requires p in s.peers
    ensures var u := TickUpkeep(s, t);
            && p in u.peers && (s.peers[p].banned ==> u.peers[p].banned)
            && WordOf(u.peers[p]) == WordOf(s.peers[p]).(choked :=
                 if s.cfg.role.Viewer? && Due(s, 0) then p !in t.unchoked else s.peers[p].choked)
            && (p in u.subscribers <==> p in s.subscribers && !NewlyBanned(p, s, u))
  {
    hide TickExpire, Total, Restrict, Buffered, OldSlots, Behind, ParkedLengths, TickChoke;
    ExpireKept(p, s, t.askOrder);
    ExpireSettings(s, t.askOrder);
    var e := TickExpire(s, t.askOrder);
    var u := TickTrim(TickUnpark(DropSlots(e, OldSlots(e))));
    ChokeReviews(p, u, t.unchoked);
  }

  lemma ClearSettings(s: Node, q: Seq)
    ensures var c := ClearPending(s, q); c.now == s.now && c.cfg == s.cfg && c.meter == s.meter
  {}

  lemma PenalizeSettings(s: Node, p: Peer, why: Penalty)
    ensures var c := Penalize(s, p, why); c.now == s.now && c.cfg == s.cfg && c.meter == s.meter
  {
    hide Total, Restrict, Buffered, SlotsOf, Decay;
  }

  lemma ExpireOneSettings(s: Node, q: Seq)
    ensures var e := ExpireOne(s, q); e.now == s.now && e.cfg == s.cfg && e.meter == s.meter
  {
    hide Total, Restrict, Buffered, ClearPending, Penalize;
    if Stale(s, q) {
      ClearSettings(s, q);
      var x := s.flight.pending[q].peer;
      PenalizeSettings(DropSlots(ClearPending(s, q), {(x, q)}), x, Timeout);
    }
  }

  lemma {:induction false} ExpireSettings(s: Node, order: seq<Seq>)
    ensures var e := TickExpire(s, order); e.now == s.now && e.cfg == s.cfg && e.meter == s.meter
    decreases |order|
  {
    hide ExpireOne;
    if order != [] {
      ExpireSettings(s, order[..|order| - 1]);
      ExpireOneSettings(TickExpire(s, order[..|order| - 1]), order[|order| - 1]);
    }
  }

  lemma {:induction false} ServeSettings(s: Node, order: seq<Peer>)
    ensures var e := TickServe(s, order); e.now == s.now && e.cfg == s.cfg && e.meter.chokeMs == s.meter.chokeMs
    decreases |order|
  {
    hide ServeQueue;
    if order != [] { ServeSettings(s, order[..|order| - 1]); }
  }

  /** A tick leaves what a peer told us; its queue drains from the front, and waits whole if we withheld upload
      from it; and when the slots are due for review on a viewer, exactly the peers chosen are served from then
      on. It ends a subscription only with a ban. */
  lemma TickTells(p: Peer, s: Node, t: TickInput)
    requires p in s.peers
    ensures var n := OnTick(s, t);
            && p in n.peers
            && n.peers[p].chokedBy == s.peers[p].chokedBy && n.peers[p].buffer == s.peers[p].buffer
            && n.peers[p].rtt == s.peers[p].rtt && (s.peers[p].banned ==> n.peers[p].banned)
            && (n.peers[p].choked <==> if s.cfg.role.Viewer? && Due(s, t.dt) then p !in t.unchoked
               else s.peers[p].choked)
            && (exists k :: 0 <= k <= |s.peers[p].queue| && n.peers[p].queue == s.peers[p].queue[k..])
            && (s.peers[p].choked ==> n.peers[p].queue == s.peers[p].queue)
            && (p in n.subscribers <==> p in s.subscribers && !NewlyBanned(p, s, n))
  {
    hide TickUpkeep, IssueAll, TickServe, Input.Plan, PickInput, Store.PruneBelow, BufMap.PruneBelow, BufMap.Highest,
        Burst;
    var r := TickRefill(TickPrune(TickCursor(s.(now := s.now + t.dt), t.playHead)));
    assert r.peers == s.peers && r.subscribers == s.subscribers && r.now == s.now + t.dt
        && r.cfg == s.cfg && r.meter.chokeMs == s.meter.chokeMs;
    hide TickRefill, TickPrune, TickCursor;
    ServeDrains(p, r, t.peerOrder);
    ServeSettings(r, t.peerOrder);
    var v := TickServe(r, t.peerOrder);
    UpkeepReviews(p, v, t);
    var u := TickUpkeep(v, t);
    IssueKept(p, u, PickInput(u, t.peerOrder).Plan(u.win.local, t.chance));
  }

  // ---- every event ----

  /** The event is this message from `p`, and we still listen to it. */
  ghost predicate Says(s: Node, e: Event, p: Peer) { e.Inbound? && e.peer == p && !(p in s.peers && s.peers[p].banned) }

  ghost predicate Chats(e: Event, p: Peer) {
    e.Inbound? && e.peer == p && !e.msg.SegmentData? && !e.msg.EdgeAnnounce?
  }

  lemma InboundKept(p: Peer, s: Node, x: Peer, msg: Msg, order: seq<Peer>)
    requires x != p || msg.SegmentData? || msg.EdgeAnnounce? || (p in s.peers && s.peers[p].banned)
    ensures Kept(p, s, OnInbound(s, x, msg, order))
  {
    hide OnSegmentData, ApplyEdge, OnChatter, JudgeEdge, Kept;
    SamePeersKept(p, s, s);
    match msg
    case SegmentData(q, total, offset, chunk) => SegmentDataKept(p, s, x, q, total, offset, chunk, order);
    case EdgeAnnounce(q, id, sig) =>
      ApplyKept(p, See(s, q), q, id, order);
      SamePeersKept(p, s, See(s, q));
      KeptTrans(p, s, See(s, q), ApplyEdge(See(s, q), q, id, order));
    case _ => if x != p { OtherChatterKept(p, s, x, msg); }
  }

  lemma FallbackKept(p: Peer, s: Node, q: Seq, bytes: Option<Bytes>, order: seq<Peer>)
    requires q in s.inflight
    ensures Kept(p, s, OnFallback(s, q, bytes, order))
  {
    hide ClearPending, DeliverVerified, BufMap.Has, Kept;
    var r := s.(inflight := s.inflight - {q});
    SamePeersKept(p, s, r);
    if bytes.Some? {
      var c := ClearPending(r, q);
      ClearKept(p, r, q);
      DeliverSame(c, q, s.inflight[q], bytes.value, order);
      SamePeersKept(p, c, DeliverVerified(c, q, s.inflight[q], bytes.value, order));
      KeptTrans(p, s, r, c);
      KeptTrans(p, s, c, DeliverVerified(c, q, s.inflight[q], bytes.value, order));
    }
  }

  lemma ProducedKept(p: Peer, s: Node, q: Seq, id: Digest, b: Bytes, order: seq<Peer>)
    ensures Kept(p, s, OnProduced(s, q, id, b, order))
  {
    hide PushLedger, Targets, Store.Get, Store.Insert, BufMap.Set, BufMap.Has;
  }

  lemma OtherDisconnectKept(p: Peer, s: Node, x: Peer)
    requires x != p
    ensures Kept(p, s, OnDisconnected(s, x))
  {
    hide Total, Restrict, Buffered, SlotsOf, Promoted, Unhedged;
  }

  /** Nothing but its own messages, its coming and going, and the tick touches a peer's word or subscription. */
  lemma StepKept(p: Peer, s: Node, e: Event)
    requires Legal(s, e) && !e.Tick? && e != PeerDisconnected(p) && (p in s.peers || !(e.PeerConnected? && e.peer == p))
    requires !(Chats(e, p) && Says(s, e, p))
    ensures Kept(p, s, Step(s, e))
  {
    hide OnInbound, OnProduced, ApplyEdge, OnDisconnected, OnFallback, Enumerates, Burst;
    match e
    case PeerDisconnected(x) => OtherDisconnectKept(p, s, x);
    case Inbound(x, msg, order) => InboundKept(p, s, x, msg, order);
    case Produced(q, id, b, order) => ProducedKept(p, s, q, id, b, order);
    case LiveEdge(q, id, order) => ApplyKept(p, s, q, id, order);
    case FallbackDone(q, bytes, order) => FallbackKept(p, s, q, bytes, order);
    case _ =>
  }

  /** One event: a peer's choking changes exactly when it says so. */
  lemma StepTells(p: Peer, s: Node, e: Event)
    requires Legal(s, e) && p in s.peers && e != PeerDisconnected(p)
    ensures var t := Step(s, e);
            && p in t.peers
            && (t.peers[p].chokedBy <==>
                  (Says(s, e, p) && e.msg.Choke?) || (s.peers[p].chokedBy && !(Says(s, e, p) && e.msg.Unchoke?)))
            && (Chats(e, p) && Says(s, e, p) ==> Hears(WordOf(s.peers[p]), WordOf(t.peers[p]), e.msg, s.now))
  {
    hide OnTick, OnChatter, OnSegmentData, ApplyEdge, OnDisconnected, OnFallback, OnProduced, Enumerates, Burst;
    if e.Tick? {
      TickTells(p, s, e.t);
    } else if Chats(e, p) && Says(s, e, p) {
      hide BufMap.Members, FromBytes;
      OwnChatterHeard(s, p, e.msg);
    } else {
      StepKept(p, s, e);
    }
  }

  /** One event: a peer subscribes and unsubscribes exactly by saying so, and loses its subscription besides only
      by leaving or by a ban. */
  lemma SubscribersExactly(p: Peer, s: Node, e: Event)
    requires Legal(s, e)
    ensures var t := Step(s, e);
            p in t.subscribers <==>
            || (Says(s, e, p) && e.msg.Subscribe?)
            || (p in s.subscribers && !(Says(s, e, p) && e.msg.Unsubscribe?) && e != PeerDisconnected(p)
                && !NewlyBanned(p, s, t))
  {
    hide OnTick, OnChatter, OnSegmentData, ApplyEdge, OnFallback, OnProduced, Enumerates, Burst, Total, Restrict,
        Buffered, SlotsOf, Promoted, Unhedged;
    if e.Tick? {
      if p in s.peers { TickTells(p, s, e.t); } else { TickStranger(p, s, e.t); }
    } else if Chats(e, p) && Says(s, e, p) {
      OwnChatterSubscribes(s, p, e.msg);
    } else if e != PeerDisconnected(p) && (p in s.peers || !(e.PeerConnected? && e.peer == p)) {
      StepKept(p, s, e);
    }
  }

  lemma TickStranger(p: Peer, s: Node, t: TickInput)
    requires p !in s.peers
    ensures p !in OnTick(s, t).peers && (p in OnTick(s, t).subscribers <==> p in s.subscribers)
  {
    hide TickUpkeep, IssueAll, TickServe, Input.Plan, PickInput, Store.PruneBelow, BufMap.PruneBelow, BufMap.Highest,
        Burst;
    var r := TickRefill(TickPrune(TickCursor(s.(now := s.now + t.dt), t.playHead)));
    assert r.peers == s.peers && r.subscribers == s.subscribers;
    hide TickRefill, TickPrune, TickCursor;
    ServeStranger(p, r, t.peerOrder);
    var v := TickServe(r, t.peerOrder);
    UpkeepStranger(p, v, t);
    var u := TickUpkeep(v, t);
    IssueKept(p, u, PickInput(u, t.peerOrder).Plan(u.win.local, t.chance));
  }

  lemma {:induction false} ServeStranger(p: Peer, s: Node, order: seq<Peer>)
    requires p !in s.peers
    ensures p !in TickServe(s, order).peers && TickServe(s, order).subscribers == s.subscribers
    decreases |order|
  {
    hide ServeQueue;
    if order != [] { ServeStranger(p, s, order[..|order| - 1]); }
  }

  lemma UpkeepStranger(p: Peer, s: Node, t: TickInput)
    requires p !in s.peers
    ensures p !in TickUpkeep(s, t).peers && (p in TickUpkeep(s, t).subscribers <==> p in s.subscribers)
  {
    hide TickExpire, Total, Restrict, Buffered, OldSlots, Behind, ParkedLengths, TickChoke;
    ExpireKept(p, s, t.askOrder);
    var e := TickExpire(s, t.askOrder);
    ChokeReviews(p, TickTrim(TickUnpark(DropSlots(e, OldSlots(e)))), t.unchoked);
  }
}
