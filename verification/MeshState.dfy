/** The mesh node actor (crates/unstation-core/src/node.rs) as a state and the functions
    its handlers compute. Hash-table iteration orders, random draws and the player's
    position are inputs of the event that consumes them. */
module MeshState {
  import opened Common
  import opened BufferMaps
  import opened Reassembly
  import opened SegmentStores
  import opened Picker
  import opened Wire

  const PENDING_TIMEOUT_MS: nat := 2_000
  const CHOKE_INTERVAL_MS: nat := 5_000
  const MAX_PENDING_VERIFY_BYTES: nat := 8 * 1024 * 1024
  const EDGE_SEEN_KEEP: nat := 1024
  const MAX_REASM: nat := 64
  const MAX_REASM_BYTES: nat := 32 * 1024 * 1024
  const REASM_TTL_MS: nat := 2 * PENDING_TIMEOUT_MS
  const PUSH_AHEAD: nat := 16
  const MAX_WANT_SEQS: nat := 32
  const SERVE_BYTES_PER_TICK: nat := 256 * 1024
  const SERVE_QUEUE_MAX: nat := 64
  const MAX_GOSSIP_PEERS: nat := 256
  const MAX_GOSSIP_RECORDS: nat := 64
  const MAX_BITFIELD_BYTES: nat := 8 * 1024
  const MAX_FALLBACK_INFLIGHT: nat := 3
  const REPUTATION_FLOOR: real := 0.05
  const REPUTATION_HEAL: real := 0.02
  const TIMEOUT_REP_FLOOR: real := 0.1

  datatype Role = Publisher | Viewer | Seed

  datatype Penalty = HashFail | Timeout | ProtocolAbuse {
    function Factor(): real {
      match this case HashFail => 0.5 case Timeout => 0.8 case ProtocolAbuse => 0.9
    }
  }

  /** Moving average with weight 0.3, seeded on the first sample. */
  datatype Ewma = Ewma(value: real, seeded: bool) {
    function Update(sample: real): Ewma {
      if seeded then Ewma(0.3 * sample + 0.7 * value, true) else Ewma(sample, true)
    }
    function Or(default: real): real { if seeded then value else default }
  }

  datatype PeerState = PeerState(buffer: BufMap, throughput: Ewma, rtt: Ewma, pendingBytes: nat,
                                 reputation: real, strikes: nat, banned: bool, choked: bool,
                                 chokedBy: bool, queue: seq<Seq>)

  const NEWCOMER: PeerState :=
    PeerState(BufMap(0, []), Ewma(0.0, false), Ewma(0.0, false), 0, 1.0, 0, false, false, false, [])

  /** An in-flight request: whom we asked, and when. */
  datatype Ask = Ask(peer: Peer, sent: nat)
  datatype Slot = Slot(r: Reasm, created: nat)
  /** Bytes received before their id is known. */
  datatype Parked = Parked(peer: Peer, raw: Bytes)

  /** Content hashing and signature verification, as arbitrary functions. */
  datatype Crypto = Crypto(hash: Bytes -> Digest, verify: (Digest, Bytes, Bytes) -> bool)

  datatype Config = Config(role: Role, live: bool, window: nat, segMs: nat, budget: nat, weights: Weights)

  /** Standing facts about a peer's conduct, in order. */
  datatype Conduct = Joined(peer: Peer) | Charged(peer: Peer, why: Penalty) | Banned(peer: Peer)

  /** What the run has done so far: pushes to the sink, ids ever recorded, conduct, bytes uploaded. */
  datatype History = History(sink: seq<(Seq, Bytes)>, recorded: set<(Seq, Digest)>,
                             conduct: seq<Conduct>, sent: nat)

  /** Fixed for the life of the node. */
  datatype Env = Env(crypto: Crypto, stream: Digest, segBytes: nat, signs: bool, fallback: bool, seedAvailable: bool)

  /** In-flight requests: the primary for a segment, and at most one hedge beside it. */
  datatype Flight = Flight(pending: map<Seq, Ask>, hedge: map<Seq, Ask>)
  datatype Assembly = Assembly(reasm: map<(Peer, Seq), Slot>, reasmBytes: nat)
  datatype ParkingLot = ParkingLot(parked: map<Seq, Parked>, parkedBytes: nat)
  /** What is known of the live edge. */
  datatype Edge = Edge(ids: map<Seq, Digest>, key: Option<Digest>, edgeSeen: set<Seq>, head: Seq)
  /** What is held, and the cursors over it. */
  datatype Window = Window(local: BufMap, store: Store, play: Seq, floor: Seq, deliveredTotal: nat)
  datatype Meter = Meter(tokens: real, tokenMs: nat, chokeMs: nat)

  datatype Node = Node(env: Env, cfg: Config, now: nat,
                       links: set<Peer>, peers: map<Peer, PeerState>, subscribers: set<Peer>,
                       flight: Flight, asm: Assembly, park: ParkingLot, edge: Edge, win: Window, meter: Meter,
                       inflight: map<Seq, Digest>, hist: History)

  datatype Msg =
    | BufferMapMsg(base: Seq, bitfield: Bytes)     // Hello and BufferMap
    | Want(seqs: seq<Seq>)
    | Have(q: Seq)
    | SegmentData(q: Seq, total: nat, offset: nat, chunk: Bytes)
    | Choke | Unchoke | Subscribe | Unsubscribe
    | Pong(sentMs: nat)
    | PeerGossip(count: nat) | PresenceGossip(count: nat)
    | EdgeAnnounce(q: Seq, id: Digest, sig: Bytes)
    | NoEffect                                     // malformed, Ping, Cancel, WantInit, InitData

  /** One tick: elapsed time, the player's position, the orders in which the peer table and the
      stale requests are walked, the upload-slot choice and the picker's chance. */
  datatype TickInput = TickInput(dt: nat, playHead: Seq, peerOrder: seq<Peer>, askOrder: seq<Seq>,
                                 unchoked: set<Peer>, chance: Chance)

  /** `order` is the subscriber iteration order the event would use for a push. */
  datatype Event =
    | PeerConnected(peer: Peer, refused: bool)
    | PeerDisconnected(peer: Peer)
    | Inbound(peer: Peer, msg: Msg, order: seq<Peer>)
    | Produced(q: Seq, id: Digest, b: Bytes, order: seq<Peer>)
    | LiveEdge(q: Seq, id: Digest, order: seq<Peer>)
    | SetPublisherKey(key: Digest)
    | SetRole(role: Role)
    | SetUploadBudget(bps: nat)
    | SetSegMs(ms: nat)
    | Tick(t: TickInput)
    | FallbackDone(q: Seq, bytes: Option<Bytes>, order: seq<Peer>)

  // ---- request accounting ----

  function Release(s: Node, p: Peer): Node {
    if p in s.peers
    then s.(peers := s.peers[p := s.peers[p].(pendingBytes := SatSub(s.peers[p].pendingBytes, s.env.segBytes))])
    else s
  }

  function ClearPrimary(s: Node, q: Seq): Node {
    if q in s.flight.pending
    then Release(s.(flight := s.flight.(pending := s.flight.pending - {q})), s.flight.pending[q].peer) else s
  }

  function ClearHedge(s: Node, q: Seq): Node {
    if q in s.flight.hedge
    then Release(s.(flight := s.flight.(hedge := s.flight.hedge - {q})), s.flight.hedge[q].peer) else s
  }

  function ClearPending(s: Node, q: Seq): Node { ClearHedge(ClearPrimary(s, q), q) }

  // ---- reassembly slots ----

  ghost function Buffered(reasm: map<(Peer, Seq), Slot>): map<(Peer, Seq), nat> {
    map k | k in reasm :: reasm[k].r.buffered
  }

  ghost function DropSlots(s: Node, ks: set<(Peer, Seq)>): Node {
    s.(asm := Assembly(s.asm.reasm - ks, SatSub(s.asm.reasmBytes, Total(Restrict(Buffered(s.asm.reasm), ks)))))
  }

  function SlotsOf(s: Node, p: Peer): set<(Peer, Seq)> { set k | k in s.asm.reasm && k.0 == p }

  // ---- reputation ----

  function Decay(rep: real, why: Penalty): real {
    if why.Timeout? then MaxReal(rep * why.Factor(), TIMEOUT_REP_FLOOR) else rep * why.Factor()
  }

  function Note(s: Node, c: Conduct): Node { s.(hist := s.hist.(conduct := s.hist.conduct + [c])) }

  function Charge(s: Node, p: Peer, why: Penalty): Node
    requires p in s.peers
  {
    var st := s.peers[p];
    var rep := Decay(st.reputation, why);
    Note(s, Charged(p, why)).(peers := s.peers[p := st.(reputation := rep,
                                                       strikes := st.strikes + (if why.Timeout? then 1 else 0),
                                                       banned := st.banned || rep < REPUTATION_FLOOR)])
  }

  ghost function Penalize(s: Node, p: Peer, why: Penalty): Node {
    if p !in s.peers then s else
      var s1 := Charge(s, p, why);
      if s1.peers[p].banned && !s.peers[p].banned
      then DropSlots(Note(s1, Banned(p)).(subscribers := s.subscribers - {p}), SlotsOf(s, p))
      else s1
  }

  // ---- delivery ----

  /** Pushes to `targets` in order until the budget runs out: tokens left and bytes sent. */
  function PushLedger(links: set<Peer>, metered: bool, size: nat, targets: seq<Peer>, tokens: real,
                      sent: nat): (real, nat)
    decreases |targets|
  {
    if targets == [] || (metered && tokens < size as real) then (tokens, sent)
    else PushLedger(links, metered, size, targets[1..],
                    if metered then tokens - size as real else tokens,
                    if targets[0] in links then sent + size else sent)
  }

  function WantsPush(s: Node, p: Peer, q: Seq): bool {
    p in s.peers ==> !s.peers[p].choked && !s.peers[p].buffer.Has(q)
  }

  function Targets(s: Node, q: Seq, order: seq<Peer>): seq<Peer> {
    if order == [] then []
    else (if WantsPush(s, order[0], q) then [order[0]] else []) + Targets(s, q, order[1..])
  }

  function PushToSubscribers(s: Node, q: Seq, order: seq<Peer>): Node {
    if s.subscribers == {} || s.win.store.Get(q).None? then s else
      var (tokens, sent) := PushLedger(s.links, s.cfg.budget > 0, |s.win.store.Get(q).value|, Targets(s, q, order),
                                       s.meter.tokens, s.hist.sent);
      s.(meter := s.meter.(tokens := tokens), hist := s.hist.(sent := sent))
  }

  ghost function Keep(s: Node, q: Seq, id: Digest, b: Bytes): Node {
    s.(win := s.win.(store := s.win.store.Insert(q, id, b),
                     deliveredTotal := s.win.deliveredTotal + (if s.win.local.Has(q) then 0 else 1),
                     local := s.win.local.Set(q)))
  }

  ghost function DeliverVerified(s: Node, q: Seq, id: Digest, b: Bytes, order: seq<Peer>): Node {
    var s1 := Keep(s, q, id, b);
    PushToSubscribers(s1.(hist := s1.hist.(sink := s1.hist.sink + [(q, b)])), q, order)
  }

  function Credit(s: Node, p: Peer, asked: Option<Ask>, n: nat): Node {
    if p !in s.peers then s else
      var st := s.peers[p];
      var st1 := if asked.Some? && asked.value.peer == p
                 then var elapsed := Max(SatSub(s.now, asked.value.sent), 1);
                      st.(throughput := st.throughput.Update(n as real * 8000.0 / elapsed as real))
                 else st;
      var st2 := if st1.banned then st1 else st1.(reputation := MinReal(st1.reputation + REPUTATION_HEAL, 1.0));
      s.(peers := s.peers[p := st2])
  }

  function AskedFor(s: Node, q: Seq): Option<Ask> { if q in s.flight.pending then Some(s.flight.pending[q]) else None }

  ghost function AcceptSegment(s: Node, p: Peer, q: Seq, id: Digest, b: Bytes, order: seq<Peer>): Node {
    DeliverVerified(Credit(ClearPending(s, q), p, AskedFor(s, q), |b|), q, id, b, order)
  }

  // ---- bytes ahead of their id ----

  function Park(s: Node, p: Peer, q: Seq, raw: Bytes): Node {
    if q in s.park.parked || s.park.parkedBytes + |raw| > MAX_PENDING_VERIFY_BYTES then s
    else s.(park := ParkingLot(s.park.parked[q := Parked(p, raw)], s.park.parkedBytes + |raw|))
  }

  function Unpark(s: Node, q: Seq): Node
    requires q in s.park.parked
  {
    s.(park := ParkingLot(s.park.parked - {q}, SatSub(s.park.parkedBytes, |s.park.parked[q].raw|)))
  }

  ghost function TryVerifyParked(s: Node, q: Seq, order: seq<Peer>): Node {
    if q !in s.park.parked then s else
      var (p, raw, s1) := (s.park.parked[q].peer, s.park.parked[q].raw, Unpark(s, q));
      if s.win.local.Has(q) || q !in s.edge.ids then s1
      else if s.env.crypto.hash(raw) == s.edge.ids[q] then AcceptSegment(s1, p, q, s.edge.ids[q], raw, order)
      else Penalize(s1, p, HashFail)
  }

  function Record(s: Node, q: Seq, id: Digest): Node {
    s.(edge := s.edge.(ids := s.edge.ids[q := id], head := Max(s.edge.head, q)),
       hist := s.hist.(recorded := s.hist.recorded + {(q, id)}))
  }

  ghost function ApplyEdge(s: Node, q: Seq, id: Digest, order: seq<Peer>): Node {
    TryVerifyParked(Record(s, q, id), q, order)
  }

  // ---- inbound chunks ----

  predicate Asked(s: Node, p: Peer, q: Seq) {
    (q in s.flight.pending && s.flight.pending[q].peer == p) || (q in s.flight.hedge && s.flight.hedge[q].peer == p)
  }

  predicate InPushWindow(s: Node, q: Seq) { s.win.play <= q <= s.edge.head + PUSH_AHEAD }

  predicate Spray(s: Node, q: Seq) { q > s.edge.head + PUSH_AHEAD * 4 || q + s.cfg.window < s.win.play }

  predicate SlotRefused(s: Node, k: (Peer, Seq), total: nat) {
    k !in s.asm.reasm && (|s.asm.reasm| >= MAX_REASM || s.asm.reasmBytes + total > MAX_REASM_BYTES)
  }

  function SlotAt(s: Node, k: (Peer, Seq), total: nat): Slot {
    if k in s.asm.reasm then s.asm.reasm[k] else Slot(Fresh(total), s.now)
  }

  function BufferChunk(s: Node, k: (Peer, Seq), total: nat, offset: nat, chunk: Bytes): Node {
    var e := SlotAt(s, k, total);
    s.(asm := Assembly(s.asm.reasm[k := e.(r := e.r.Add(offset, chunk))],
                       s.asm.reasmBytes + e.r.Gain(offset, chunk)))
  }

  /** A segment's last chunk arrived: verify it, or park it while its id is unknown. */
  ghost function Completed(s: Node, p: Peer, q: Seq, r: Reasm, order: seq<Peer>): Node {
    if q in s.edge.ids then
      (if r.Complete() && s.env.crypto.hash(r.Assembled()) == s.edge.ids[q]
       then AcceptSegment(s, p, q, s.edge.ids[q], r.Assembled(), order)
       else Penalize(ClearPending(s, q), p, HashFail))
    else if r.Complete() then Park(ClearPending(s, q), p, q, r.Assembled())
    else ClearPending(s, q)
  }

  ghost function OnSegmentData(s: Node, p: Peer, q: Seq, total: nat, offset: nat, chunk: Bytes,
                               order: seq<Peer>): Node {
    if s.win.local.Has(q) || total == 0 || total > MAX_SEGMENT_BYTES then s
    else if !Asked(s, p, q) && !InPushWindow(s, q) then
      (if Spray(s, q) then Penalize(s, p, ProtocolAbuse) else s)
    else if SlotRefused(s, (p, q), total) then s
    else
      var s1 := BufferChunk(s, (p, q), total, offset, chunk);
      var r := s1.asm.reasm[(p, q)].r;
      if r.Complete() then Completed(DropSlots(s1, {(p, q)}), p, q, r, order) else s1
  }

  // ---- the other messages ----

  /** Make sure a peer has a state, as `entry().or_insert_with` does. */
  function Join(s: Node, p: Peer): Node {
    if p in s.peers then s else Note(s, Joined(p)).(peers := s.peers[p := NEWCOMER])
  }

  function Enqueue(queue: seq<Seq>, seqs: seq<Seq>): seq<Seq>
    decreases |seqs|
  {
    if seqs == [] || |queue| >= SERVE_QUEUE_MAX then queue
    else Enqueue(if seqs[0] in queue then queue else queue + [seqs[0]], seqs[1..])
  }

  /** What a node does with a gossiped edge, decided before it touches anything else. */
  datatype Verdict = Dropped | Duplicate | News

  function JudgeEdge(crypto: Crypto, stream: Digest, key: Option<Digest>, seen: set<Seq>, q: Seq, id: Digest,
                     sig: Bytes): Verdict {
    if key.None? || !crypto.verify(key.value, EdgePayload(stream, q, id), sig) then Dropped
    else if q in seen then Duplicate
    else News
  }

  function See(s: Node, q: Seq): Node { s.(edge := s.edge.(edgeSeen := s.edge.edgeSeen + {q})) }

  ghost function OnEdgeAnnounce(s: Node, q: Seq, id: Digest, sig: Bytes, order: seq<Peer>): Node {
    if JudgeEdge(s.env.crypto, s.env.stream, s.edge.key, s.edge.edgeSeen, q, id, sig).News?
    then ApplyEdge(See(s, q), q, id, order)
    else s
  }

  ghost function OnWant(s: Node, p: Peer, seqs: seq<Seq>): Node {
    if |seqs| > MAX_WANT_SEQS then Penalize(s, p, ProtocolAbuse)
    else if p !in s.peers || s.peers[p].choked then s
    else s.(peers := s.peers[p := s.peers[p].(queue := Enqueue(s.peers[p].queue, seqs))])
  }

  ghost function OnBufferMap(s: Node, p: Peer, base: Seq, bitfield: Bytes): Node {
    if |bitfield| > MAX_BITFIELD_BYTES then Penalize(s, p, ProtocolAbuse)
    else var s1 := Join(s, p); s1.(peers := s1.peers[p := s1.peers[p].(buffer := FromBytes(base, bitfield))])
  }

  function Noted(st: PeerState, msg: Msg, now: nat): PeerState {
    match msg
    case Have(q) => st.(buffer := st.buffer.Set(q))
    case Choke => st.(chokedBy := true)
    case Unchoke => st.(chokedBy := false)
    case Pong(sent) => st.(rtt := st.rtt.Update(MaxReal(SatSub(now, sent) as real, 1.0)))
    case _ => st
  }

  /** Messages that touch only the sender's own entry. */
  function OnPeerNote(s: Node, p: Peer, msg: Msg): Node {
    if msg.Subscribe? then s.(subscribers := s.subscribers + {p})
    else if msg.Unsubscribe? then s.(subscribers := s.subscribers - {p})
    else if p in s.peers then s.(peers := s.peers[p := Noted(s.peers[p], msg, s.now)])
    else s
  }

  /** Everything but segment bytes and edges. */
  ghost function OnChatter(s: Node, p: Peer, msg: Msg): Node {
    match msg
    case BufferMapMsg(base, bitfield) => OnBufferMap(s, p, base, bitfield)
    case Want(seqs) => OnWant(s, p, seqs)
    case PeerGossip(n) => if n > MAX_GOSSIP_PEERS then Penalize(s, p, ProtocolAbuse) else s
    case PresenceGossip(n) => if n > MAX_GOSSIP_RECORDS then Penalize(s, p, ProtocolAbuse) else s
    case _ => OnPeerNote(s, p, msg)
  }

  ghost function OnInbound(s: Node, p: Peer, msg: Msg, order: seq<Peer>): Node {
    if p in s.peers && s.peers[p].banned then s else
      match msg
      case SegmentData(q, total, offset, chunk) => OnSegmentData(s, p, q, total, offset, chunk, order)
      case EdgeAnnounce(q, id, sig) => OnEdgeAnnounce(s, q, id, sig, order)
      case _ => OnChatter(s, p, msg)
  }

  // ---- connection and local events ----

  function OnConnected(s: Node, p: Peer, refused: bool): Node {
    if refused then s else Join(s, p).(links := s.links + {p})
  }

  /** Requests to `p` vanish; a hedge outlives its dead primary. */
  function Promoted(pending: map<Seq, Ask>, hedge: map<Seq, Ask>, p: Peer): map<Seq, Ask> {
    map q | q in pending && (pending[q].peer != p || q in hedge)
      :: if pending[q].peer != p then pending[q] else hedge[q]
  }

  function Unhedged(pending: map<Seq, Ask>, hedge: map<Seq, Ask>, p: Peer): map<Seq, Ask> {
    map q | q in hedge && !(q in pending && pending[q].peer == p) && hedge[q].peer != p :: hedge[q]
  }

  ghost function OnDisconnected(s: Node, p: Peer): Node {
    DropSlots(s.(links := s.links - {p}, peers := s.peers - {p}, subscribers := s.subscribers - {p},
                 flight := Flight(Promoted(s.flight.pending, s.flight.hedge, p),
                     Unhedged(s.flight.pending, s.flight.hedge, p))),
              SlotsOf(s, p))
  }

  ghost function OnProduced(s: Node, q: Seq, id: Digest, b: Bytes, order: seq<Peer>): Node {
    PushToSubscribers(if s.env.signs then See(Record(Keep(s, q, id, b), q, id), q)
        else Record(Keep(s, q, id, b), q, id), q, order)
  }

  function Burst(budget: nat, segBytes: nat): real { MaxReal(budget as real / 8.0 * 0.5, 2.0 * segBytes as real) }

  function OnSetBudget(s: Node, bps: nat): Node {
    s.(cfg := s.cfg.(budget := bps),
       meter := if bps > 0 then s.meter.(tokens := MinReal(s.meter.tokens, Burst(bps, s.env.segBytes))) else s.meter)
  }

  ghost function OnFallback(s: Node, q: Seq, bytes: Option<Bytes>, order: seq<Peer>): Node
    requires q in s.inflight
  {
    var s1 := s.(inflight := s.inflight - {q});
    if bytes.None? || s.win.local.Has(q) || s.env.crypto.hash(bytes.value) != s.inflight[q] then s1
    else DeliverVerified(ClearPending(s1, q), q, s.inflight[q], bytes.value, order)
  }

  // ---- the tick ----

  function TickCursor(s: Node, playHead: Seq): Node {
    var play1 := Max(s.win.play, playHead);
    var edge := SatSub(s.edge.head, s.cfg.window / 2);
    var play2 := if s.cfg.role == Role.Seed && s.cfg.live then Max(play1, edge) else play1;
    var play3 := if s.cfg.role == Viewer && s.cfg.live && edge > play2 + s.cfg.window then edge else play2;
    s.(win := s.win.(play := play3))
  }

  function PruneFloor(s: Node): Seq {
    var anchor := if s.win.local.Highest().Some? then Min(s.win.play, s.win.local.Highest().value) else s.win.play;
    SatSub(anchor, s.cfg.window)
  }

  ghost function TickPrune(s: Node): Node {
    if s.cfg.live && s.cfg.role != Publisher && PruneFloor(s) > s.win.floor then
      var f := PruneFloor(s);
      s.(win := s.win.(floor := f, store := s.win.store.PruneBelow(f), local := s.win.local.PruneBelow(f)),
         edge := s.edge.(ids := map q | q in s.edge.ids && q >= f :: s.edge.ids[q]))
    else s
  }

  function TickRefill(s: Node): Node {
    if s.cfg.budget == 0 then s else
      s.(meter := s.meter.(tokenMs := s.now,
           tokens := MinReal(s.meter.tokens + s.cfg.budget as real / 8.0 * (SatSub(s.now,
               s.meter.tokenMs) as real / 1000.0),
                             Burst(s.cfg.budget, s.env.segBytes))))
  }

  /** Serve one peer's queue: what is left of it, of the tokens, and the bytes sent. */
  datatype Serving = Serving(queue: seq<Seq>, tokens: real, sent: nat)

  function ServeQueue(store: Store, linked: bool, metered: bool, segBytes: nat, served: nat, v: Serving): Serving
    decreases |v.queue|
  {
    if served >= SERVE_BYTES_PER_TICK || v.queue == [] then v else
      var q := v.queue[0];
      match store.Locate(q)
      case Absent => ServeQueue(store, linked, metered, segBytes, served, v.(queue := v.queue[1..]))
      case Memory =>
        var size := |store.mem[q]|;
        if metered && v.tokens < size as real then v
        else ServeQueue(store, linked, metered, segBytes, served + size,
                        Serving(v.queue[1..], if metered then v.tokens - size as real else v.tokens,
                                if linked then v.sent + size else v.sent))
      case Disk(_) =>
        if metered && v.tokens < segBytes as real then v
        else ServeQueue(store, linked, metered, segBytes, served + segBytes,
                        v.(queue := v.queue[1..], tokens := if metered then v.tokens - segBytes as real else v.tokens))
  }

  function ServePeer(s: Node, p: Peer): Node {
    if p !in s.peers || s.peers[p].choked then s else
      var v := ServeQueue(s.win.store, p in s.links, s.cfg.budget > 0, s.env.segBytes, 0,
                          Serving(s.peers[p].queue, s.meter.tokens, s.hist.sent));
      s.(peers := s.peers[p := s.peers[p].(queue := v.queue)], meter := s.meter.(tokens := v.tokens),
          hist := s.hist.(sent := v.sent))
  }

  function TickServe(s: Node, order: seq<Peer>): Node
    decreases |order|
  {
    if order == [] then s else ServePeer(TickServe(s, order[..|order| - 1]), order[|order| - 1])
  }

  predicate Stale(s: Node, q: Seq) {
    q in s.flight.pending && SatSub(s.now, s.flight.pending[q].sent) >= PENDING_TIMEOUT_MS
  }

  ghost function ExpireOne(s: Node, q: Seq): Node {
    if !Stale(s, q) then s else
      var p := s.flight.pending[q].peer;
      Penalize(DropSlots(ClearPending(s, q), {(p, q)}), p, Timeout)
  }

  ghost function TickExpire(s: Node, order: seq<Seq>): Node
    decreases |order|
  {
    if order == [] then s else ExpireOne(TickExpire(s, order[..|order| - 1]), order[|order| - 1])
  }

  function OldSlots(s: Node): set<(Peer, Seq)> {
    set k | k in s.asm.reasm && SatSub(s.now, s.asm.reasm[k].created) >= REASM_TTL_MS
  }

  ghost function ParkedLengths(parked: map<Seq, Parked>): map<Seq, nat> { map q | q in parked :: |parked[q].raw| }

  /** Parked segments playback has moved past. */
  function Behind(s: Node): set<Seq> { set q | q in s.park.parked && q < s.win.play }

  ghost function TickUnpark(s: Node): Node {
    s.(park := ParkingLot(s.park.parked - Behind(s),
                          SatSub(s.park.parkedBytes, Total(Restrict(ParkedLengths(s.park.parked), Behind(s))))))
  }

  function TickTrim(s: Node): Node {
    if |s.edge.edgeSeen| <= EDGE_SEEN_KEEP then s
    else s.(edge := s.edge.(edgeSeen := set q | q in s.edge.edgeSeen && q >= SatSub(s.edge.head, EDGE_SEEN_KEEP)))
  }

  function TickChoke(s: Node, unchoked: set<Peer>): Node {
    if s.peers == map[] || !(s.meter.chokeMs == 0 || SatSub(s.now, s.meter.chokeMs) >= CHOKE_INTERVAL_MS) then s
    else if s.cfg.role != Viewer then s.(meter := s.meter.(chokeMs := s.now))
    else s.(meter := s.meter.(chokeMs := s.now), peers := map p | p in s.peers :: s.peers[p].(choked := p !in unchoked))
  }

  // ---- the tick's requests ----

  function ViewsOf(peers: map<Peer, PeerState>, order: seq<Peer>): seq<PeerView> {
    if order == [] then [] else
      var rest := ViewsOf(peers, order[..|order| - 1]);
      var p := order[|order| - 1];
      if p !in peers || peers[p].banned then rest
      else rest + [PeerView(p, peers[p].buffer, peers[p].throughput.Or(5_000_000.0), peers[p].rtt.Or(80.0),
                            peers[p].pendingBytes, peers[p].reputation)]
  }

  function PickInput(s: Node, order: seq<Peer>): Input {
    Input(s.win.play, s.edge.head, s.cfg.window, s.env.segBytes, s.cfg.segMs, ViewsOf(s.peers, order), s.cfg.weights,
          s.env.seedAvailable, s.env.fallback)
  }

  function Want1(s: Node, p: Peer): Node
    requires p in s.peers
  {
    s.(peers := s.peers[p := s.peers[p].(pendingBytes := s.peers[p].pendingBytes + s.env.segBytes)])
  }

  /** A planned request: the primary, or one hedge beside it. The plan names only peers of the table. */
  function AskPeer(s: Node, q: Seq, p: Peer, redundant: bool): Node {
    if q in s.flight.pending && (!redundant || s.flight.pending[q].peer == p || q in s.flight.hedge) then s
    else if p !in s.peers || s.peers[p].chokedBy || p !in s.links then s
    else if q in s.flight.pending then Want1(s.(flight := s.flight.(hedge := s.flight.hedge[q := Ask(p, s.now)])), p)
    else Want1(s.(flight := s.flight.(pending := s.flight.pending[q := Ask(p, s.now)])), p)
  }

  function RequestFallback(s: Node, q: Seq): Node {
    if !s.env.fallback || q in s.inflight || |s.inflight| >= MAX_FALLBACK_INFLIGHT || q !in s.edge.ids then s
    else s.(inflight := s.inflight[q := s.edge.ids[q]])
  }

  function Issue(s: Node, r: Request): Node {
    if r.seq_ in s.park.parked then s
    else match r.source
      case FromPeer(p) => AskPeer(s, r.seq_, p, r.redundant)
      case _ => RequestFallback(s, r.seq_)
  }

  function IssueAll(s: Node, rs: seq<Request>): Node
    decreases |rs|
  {
    if rs == [] then s else Issue(IssueAll(s, rs[..|rs| - 1]), rs[|rs| - 1])
  }

  ghost function TickUpkeep(s: Node, t: TickInput): Node {
    TickChoke(TickTrim(TickUnpark(var e := TickExpire(s, t.askOrder); DropSlots(e, OldSlots(e)))), t.unchoked)
  }

  ghost function OnTick(s: Node, t: TickInput): Node {
    var s1 := TickRefill(TickPrune(TickCursor(s.(now := s.now + t.dt), t.playHead)));
    var s2 := TickUpkeep(TickServe(s1, t.peerOrder), t);
    IssueAll(s2, PickInput(s2, t.peerOrder).Plan(s2.win.local, t.chance))
  }

  // ---- one step ----

  /** What the environment may hand the actor: wire-typed numbers, iteration orders that list the
      table they walk, draws in [0, 1), and floor results only for fetches in flight. */
  ghost predicate Legal(s: Node, e: Event) {
    match e
    case Inbound(_, msg, order) =>
      && Enumerates(order, s.subscribers)
      && (msg.SegmentData? ==> msg.q <= U64_MAX) && (msg.EdgeAnnounce? ==> msg.q <= U64_MAX)
    case Produced(q, _, _, order) => q <= U64_MAX && Enumerates(order, s.subscribers)
    case LiveEdge(q, _, order) => q <= U64_MAX && Enumerates(order, s.subscribers)
    case FallbackDone(q, _, order) => q <= U64_MAX && q in s.inflight && Enumerates(order, s.subscribers)
    case Tick(t) =>
      && t.playHead <= U64_MAX
      && Enumerates(t.peerOrder, s.peers.Keys) && Enumerates(t.askOrder, s.flight.pending.Keys)
      && (forall q: Seq :: 0.0 <= t.chance.draw(q) < 1.0)
    case _ => true
  }

  ghost function Step(s: Node, e: Event): Node
    requires Legal(s, e)
  {
    match e
    case PeerConnected(p, refused) => OnConnected(s, p, refused)
    case PeerDisconnected(p) => OnDisconnected(s, p)
    case Inbound(p, msg, order) => OnInbound(s, p, msg, order)
    case Produced(q, id, b, order) => OnProduced(s, q, id, b, order)
    case LiveEdge(q, id, order) => ApplyEdge(s, q, id, order)
    case SetPublisherKey(key) => s.(edge := s.edge.(key := Some(key)))
    case SetRole(role) => s.(cfg := s.cfg.(role := role))
    case SetUploadBudget(bps) => OnSetBudget(s, bps)
    case SetSegMs(ms) => s.(cfg := s.cfg.(segMs := Max(ms, 1)))
    case Tick(t) => OnTick(s, t)
    case FallbackDone(q, bytes, order) => OnFallback(s, q, bytes, order)
  }

  // ---- initial states and runs ----

  /** A viewer or relay at start: the ids it was given and nothing else. */
  function Start(env: Env, cfg: Config, key: Option<Digest>, ids: map<Seq, Digest>, head: Seq,
                 capacity: nat, disk: bool): Node {
    Node(env, cfg, 0, {}, map[], {},
         Flight(map[], map[]), Assembly(map[], 0), ParkingLot(map[], 0), Edge(ids, key, {}, head),
         Window(BufMap(0, []), Empty(capacity, disk), 0, 0, 0),
         Meter(if cfg.budget > 0 then Burst(cfg.budget, env.segBytes) else 0.0, 0, 0),
         map[], History([], ids.Items, [], 0))
  }

  ghost predicate IsStart(s: Node) {
    && s.edge.head <= U64_MAX
    && s == Start(s.env, s.cfg, s.edge.key, s.edge.ids, s.edge.head, s.win.store.capacity, s.win.store.disk)
  }

  ghost predicate IsRun(tr: seq<Node>, es: seq<Event>) {
    && |tr| == |es| + 1 && IsStart(tr[0])
    && forall i :: 0 <= i < |es| ==> Legal(tr[i], es[i]) && tr[i + 1] == Step(tr[i], es[i])
  }
}
