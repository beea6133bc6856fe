/** One publisher-signed live edge flooding a fixed network of mesh nodes
    (crates/unstation-core/src/node.rs: gossip_edge, the EdgeAnnounce handler, the re-announce).
    Each node is a full mesh node that goes on handling its other events between deliveries. */
module Gossip {
  import opened Common
  import opened Wire
  import opened MeshState
  import opened MeshSteady

  /** The edge being announced, and the world it is announced in: one hash and signature scheme, the
      publisher's key, and every (stream, segment, id) that key ever signed. */
  datatype Topic = Topic(crypto: Crypto, stream: Digest, key: Digest, pub: Peer, q: Seq, id: Digest,
                         published: iset<(Digest, Seq, Digest)>) {

    ghost predicate SomeSigned(payload: Bytes) {
      exists e :: e in published && e.1 <= U64_MAX && payload == EdgePayload(e.0, e.1, e.2)
    }

    predicate Verifies(id: Digest, sig: Bytes) { crypto.verify(key, EdgePayload(stream, q, id), sig) }

    /** Only what the publisher signed verifies, and it signed one id for this segment of this stream. */
    ghost predicate Honest() {
      && q <= U64_MAX
      && (forall payload: Bytes, sig: Bytes :: crypto.verify(key, payload, sig) ==> SomeSigned(payload))
      && (forall e :: e in published && e.0 == stream && e.1 == q ==> e.2 == id)
    }
  }

  /** Whatever verifies for the topic's segment is the id published for it: the payload binds all three. */
  lemma VerifiedIsPublished(t: Topic, other: Digest, sig: Bytes)
    requires t.Honest() && t.Verifies(other, sig)
    ensures other == t.id && (t.stream, t.q, t.id) in t.published
  {
    hide EdgePayload;
    assert t.SomeSigned(EdgePayload(t.stream, t.q, other));
    var e :| e in t.published && e.1 <= U64_MAX && EdgePayload(t.stream, t.q, other) == EdgePayload(e.0, e.1, e.2);
    EdgePayloadBinds(t.stream, t.q, other, e.0, e.1, e.2);
  }

  /** An announcement of the topic's segment on its way from one node to another. */
  datatype Packet = Packet(src: Peer, dst: Peer, id: Digest, sig: Bytes)

  /** What the network did about the topic, counted. */
  datatype Ledger = Ledger(applied: map<Peer, nat>, sent: map<Peer, nat>,
                           delivered: nat, lost: nat, injected: nat, reannounced: nat)

  datatype Net = Net(nodes: map<Peer, Node>, wire: multiset<Packet>, book: Ledger)

  datatype Act =
    | Announce(b: Bytes, sig: Bytes, order: seq<Peer>)   // the publisher's pipeline produced the segment
    | Reannounce(sig: Bytes)                             // the publisher repeats a recent edge
    | Deliver(p: Packet, order: seq<Peer>)
    | Lose(p: Packet)
    | Inject(p: Packet)                                  // anything an outside peer may send
    | Local(at: Peer, e: Event)                          // any other event at one node

  // ---- one step of the network ----

  ghost function Fan(src: Peer, to: set<Peer>, id: Digest, sig: Bytes): set<Packet> {
    set m | m in to :: Packet(src, m, id, sig)
  }

  /** `src` sends the announcement to every peer in `to`. */
  ghost function Send(n: Net, src: Peer, to: set<Peer>, id: Digest, sig: Bytes): Net
    requires src in n.book.sent
  {
    n.(wire := n.wire + multiset(Fan(src, to, id, sig)),
       book := n.book.(sent := n.book.sent[src := n.book.sent[src] + |to|]))
  }

  ghost function Seen(t: Topic, s: Node): bool { t.q in s.edge.edgeSeen }

  ghost function OnAnnounce(t: Topic, n: Net, b: Bytes, sig: Bytes, order: seq<Peer>): Net
    requires t.pub in n.nodes && t.pub in n.book.sent
  {
    var s := n.nodes[t.pub];
    var m := n.(nodes := n.nodes[t.pub := OnProduced(s, t.q, t.id, b, order)]);
    if Seen(t, s) then m else Send(m, t.pub, s.links, t.id, sig)
  }

  /** Fresh and verified: apply it and fan out, minus the sender. Otherwise the node does nothing. */
  ghost predicate Takes(t: Topic, s: Node, p: Packet) {
    && !(p.src in s.peers && s.peers[p.src].banned)
    && JudgeEdge(s.env.crypto, s.env.stream, s.edge.key, s.edge.edgeSeen, t.q, p.id, p.sig).News?
  }

  ghost function OnDeliver(t: Topic, n: Net, p: Packet, order: seq<Peer>): Net
    requires p in n.wire && p.dst in n.nodes && p.dst in n.book.sent && p.dst in n.book.applied
  {
    var s := n.nodes[p.dst];
    var m := Net(n.nodes[p.dst := OnInbound(s, p.src, EdgeAnnounce(t.q, p.id, p.sig), order)],
                 n.wire - multiset{p}, n.book.(delivered := n.book.delivered + 1));
    if Takes(t, s, p)
    then Send(m.(book := m.book.(applied := m.book.applied[p.dst := m.book.applied[p.dst] + 1])),
              p.dst, s.links - {p.src}, p.id, p.sig)
    else m
  }

  ghost predicate Possible(t: Topic, n: Net, a: Act) {
    && n.book.applied.Keys == n.nodes.Keys && n.book.sent.Keys == n.nodes.Keys
    && match a
       case Announce(_, sig, order) =>
         && t.pub in n.nodes && n.nodes[t.pub].env.signs && t.Verifies(t.id, sig)
         && Enumerates(order, n.nodes[t.pub].subscribers)
       case Reannounce(sig) => t.pub in n.nodes && Seen(t, n.nodes[t.pub]) && t.Verifies(t.id, sig)
       case Deliver(p, order) => p in n.wire && p.dst in n.nodes && Enumerates(order, n.nodes[p.dst].subscribers)
       case Lose(p) => p in n.wire
       case Inject(p) => p.src !in n.nodes
       case Local(at, e) => at in n.nodes && Legal(n.nodes[at], e) && Everyday(t.q, n.nodes[at], e)
  }

  ghost function NetStep(t: Topic, n: Net, a: Act): Net
    requires Possible(t, n, a)
  {
    match a
    case Announce(b, sig, order) => OnAnnounce(t, n, b, sig, order)
    case Reannounce(sig) =>
      Send(n.(book := n.book.(reannounced := n.book.reannounced + 1)), t.pub, n.nodes[t.pub].links, t.id, sig)
    case Deliver(p, order) => OnDeliver(t, n, p, order)
    case Lose(p) => n.(wire := n.wire - multiset{p}, book := n.book.(lost := n.book.lost + 1))
    case Inject(p) => n.(wire := n.wire + multiset{p}, book := n.book.(injected := n.book.injected + 1))
    case Local(at, e) => n.(nodes := n.nodes[at := Step(n.nodes[at], e)])
  }

  /** Nobody has heard of the edge yet; nodes trust the publisher or nobody. */
  ghost predicate Silent(t: Topic, n: Net) {
    && n.wire == multiset{}
    && (forall p :: p in n.nodes ==> Trusts(t, n.nodes[p]) && !Seen(t, n.nodes[p]))
    && n.book == Ledger(map p | p in n.nodes :: 0, map p | p in n.nodes :: 0, 0, 0, 0, 0)
  }

  ghost predicate Trusts(t: Topic, s: Node) {
    && s.env.crypto == t.crypto && s.env.stream == t.stream
    && (s.edge.key == None || s.edge.key == Some(t.key))
  }

  ghost predicate IsNetRun(t: Topic, tr: seq<Net>, acts: seq<Act>) {
    && |tr| == |acts| + 1 && Silent(t, tr[0])
    && forall i :: 0 <= i < |acts| ==> Possible(t, tr[i], acts[i]) && tr[i + 1] == NetStep(t, tr[i], acts[i])
  }

  // ---- what every step keeps ----

  ghost function Degree(n: Net, p: Peer): nat
    requires p in n.nodes
  { |n.nodes[p].links| }

  /** The most announcements one node may have sent. */
  ghost function Quota(t: Topic, n: Net, p: Peer): nat
    requires p in n.nodes
  {
    Degree(n, p) * (1 + if p == t.pub then n.book.reannounced else 0)
  }

  /** A node that has seen the edge holds the publisher's id; one that has not did nothing about it. */
  ghost predicate Account(t: Topic, n: Net, p: Peer)
    requires p in n.nodes && p in n.book.applied && p in n.book.sent
  {
    && Trusts(t, n.nodes[p])
    && n.book.applied[p] <= 1
    && (if Seen(t, n.nodes[p]) then (t.q, t.id) in n.nodes[p].hist.recorded && n.book.sent[p] <= Quota(t, n, p)
        else n.book.applied[p] == 0 && n.book.sent[p] == 0)
  }

  /** What a node of the network sends is signed, names the publisher's id, and is sent only once known. */
  ghost predicate Backed(t: Topic, n: Net, p: Packet) {
    p.src in n.nodes ==> p.id == t.id && t.Verifies(p.id, p.sig) && Seen(t, n.nodes[p.src])
  }

  /** `m` will not take the edge from `p`: it has it, it holds no key, or it has banned `p`. */
  ghost predicate Done(t: Topic, n: Net, p: Peer, m: Peer)
    requires m in n.nodes
  {
    var s := n.nodes[m];
    Seen(t, s) || s.edge.key == None || (p in s.peers && s.peers[p].banned)
  }

  ghost predicate OnItsWay(t: Topic, n: Net, p: Peer, m: Peer) {
    exists sig :: Packet(p, m, t.id, sig) in n.wire
  }

  /** The flood has not stalled across the link from `p` to `m`. */
  ghost predicate Flows(t: Topic, n: Net, p: Peer, m: Peer)
    requires p in n.nodes && m in n.nodes
  {
    Seen(t, n.nodes[p]) && m in n.nodes[p].links ==> Done(t, n, p, m) || OnItsWay(t, n, p, m)
  }

  ghost predicate Accounts(t: Topic, n: Net) {
    && n.book.applied.Keys == n.nodes.Keys && n.book.sent.Keys == n.nodes.Keys
    && (forall p :: p in n.nodes ==> Account(t, n, p))
    && (forall p :: p in n.wire ==> Backed(t, n, p))
  }

  /** Every announcement sent or injected is in flight, delivered or lost. */
  ghost predicate Conserved(n: Net) {
    Total(n.book.sent) + n.book.injected == |n.wire| + n.book.delivered + n.book.lost
  }

  ghost predicate Flooding(t: Topic, n: Net) {
    forall p, m :: p in n.nodes && m in n.nodes ==> Flows(t, n, p, m)
  }

  /** What a delivery does to the receiving node: all or nothing, and only ever the publisher's id. */
  lemma TakeEffect(t: Topic, s: Node, p: Packet, order: seq<Peer>)
    requires t.Honest() && Trusts(t, s)
    ensures var s' := OnInbound(s, p.src, EdgeAnnounce(t.q, p.id, p.sig), order);
            if Takes(t, s, p)
            then && Kept(s, s') && !Seen(t, s) && Seen(t, s') && p.id == t.id && t.Verifies(p.id, p.sig)
                 && (t.q, t.id) in s'.hist.recorded && Holds(s', t.q, t.id)
            else s' == s
  {
    hide ApplyEdge, Kept, Topic.Honest, EdgePayload, Holds;
    if Takes(t, s, p) {
      assert t.Verifies(p.id, p.sig);
      VerifiedIsPublished(t, p.id, p.sig);
      ApplySteady(t.q, See(s, t.q), t.q, p.id, order);
      SeeKept(t, s, ApplyEdge(See(s, t.q), t.q, p.id, order));
    }
  }

  lemma SeeKept(t: Topic, s: Node, s': Node)
    requires Kept(See(s, t.q), s') && t.q in s'.edge.edgeSeen
    ensures Kept(s, s') && Seen(t, s')
  {}

  /** A node that refuses a backed announcement has it, has no key, or has banned the sender. */
  lemma RefusedMeansDone(t: Topic, n: Net, p: Packet)
    requires p.dst in n.nodes && p.src in n.nodes && Trusts(t, n.nodes[p.dst]) && Backed(t, n, p)
    requires !Takes(t, n.nodes[p.dst], p)
    ensures Done(t, n, p.src, p.dst)
  {}

  /** One node moves on without losing anything, and the books change as `book` says. */
  ghost predicate MovesOn(t: Topic, n: Net, n': Net, at: Peer) {
    && at in n.nodes && at in n'.nodes && n'.nodes == n.nodes[at := n'.nodes[at]]
    && Kept(n.nodes[at], n'.nodes[at])
    && (Seen(t, n.nodes[at]) ==> Seen(t, n'.nodes[at]))
  }

  lemma AccountsMove(t: Topic, n: Net, n': Net, at: Peer)
    requires Accounts(t, n) && MovesOn(t, n, n', at) && n'.wire <= n.wire
    requires n'.book.applied.Keys == n.nodes.Keys && n'.book.sent == n.book.sent
             && n'.book.reannounced == n.book.reannounced
    requires forall p :: p in n.nodes && p != at ==> n'.book.applied[p] == n.book.applied[p]
    requires n'.book.applied[at] <= 1
    requires if Seen(t, n'.nodes[at]) then (t.q, t.id) in n'.nodes[at].hist.recorded else n'.book.applied[at] == 0
    ensures Accounts(t, n')
  {
    hide Topic.Verifies;
    forall p | p in n'.wire ensures Backed(t, n', p) { assert p in n.wire && Backed(t, n, p); }
    forall p | p in n'.nodes ensures Account(t, n', p) { assert Account(t, n, p); }
  }

  lemma AccountsSend(t: Topic, n: Net, src: Peer, to: set<Peer>, sig: Bytes)
    requires Accounts(t, n) && src in n.nodes && Seen(t, n.nodes[src]) && t.Verifies(t.id, sig)
    requires n.book.sent[src] + |to| <= Quota(t, n, src)
    ensures Accounts(t, Send(n, src, to, t.id, sig))
  {
    var n' := Send(n, src, to, t.id, sig);
    forall p | p in n'.wire ensures Backed(t, n', p) {
      if p in n.wire { assert Backed(t, n, p); }
      else { assert p in Fan(src, to, t.id, sig); }
    }
    forall p | p in n'.nodes ensures Account(t, n', p) { assert Account(t, n, p); }
  }

  lemma AnnounceMoves(t: Topic, n: Net, b: Bytes, order: seq<Peer>)
    requires Accounts(t, n) && t.pub in n.nodes && n.nodes[t.pub].env.signs
    ensures var m := n.(nodes := n.nodes[t.pub := OnProduced(n.nodes[t.pub], t.q, t.id, b, order)]);
            MovesOn(t, n, m, t.pub) && Seen(t, m.nodes[t.pub]) && Accounts(t, m)
            && m.nodes[t.pub].links == n.nodes[t.pub].links
  {
    hide OnProduced, Quota;
    var s := n.nodes[t.pub];
    ProducedSteady(t.q, s, t.q, t.id, b, order);
    assert Account(t, n, t.pub);
    AccountsMove(t, n, n.(nodes := n.nodes[t.pub := OnProduced(s, t.q, t.id, b, order)]), t.pub);
  }

  lemma AnnounceAccounts(t: Topic, n: Net, b: Bytes, sig: Bytes, order: seq<Peer>)
    requires Accounts(t, n) && Possible(t, n, Announce(b, sig, order))
    ensures Accounts(t, OnAnnounce(t, n, b, sig, order))
  {
    hide OnProduced, Accounts, Kept;
    var s := n.nodes[t.pub];
    AnnounceMoves(t, n, b, order);
    var m := n.(nodes := n.nodes[t.pub := OnProduced(s, t.q, t.id, b, order)]);
    if !Seen(t, s) {
      assert m.book.sent[t.pub] == 0 by { UnseenSentNothing(t, n, t.pub); }
      AtLeastOnce(|s.links|, m.book.reannounced);
      AccountsSend(t, m, t.pub, s.links, sig);
    }
  }

  lemma UnseenSentNothing(t: Topic, n: Net, p: Peer)
    requires Accounts(t, n) && p in n.nodes && !Seen(t, n.nodes[p])
    ensures n.book.sent[p] == 0 && n.book.applied[p] == 0
  {
    assert Account(t, n, p);
  }

  lemma AtLeastOnce(d: nat, k: nat)
    ensures d <= d * (1 + k) && d * (1 + (k + 1)) == d * (1 + k) + d
  {}

  /** Other packets on the wire, or a larger allowance, disturb no account. */
  lemma BookAccounts(t: Topic, n: Net, n': Net)
    requires Accounts(t, n) && n'.nodes == n.nodes
    requires n'.book.applied == n.book.applied && n'.book.sent == n.book.sent
             && n'.book.reannounced >= n.book.reannounced
    requires forall p :: p in n'.wire ==> p in n.wire || p.src !in n.nodes
    ensures Accounts(t, n')
  {
    forall p | p in n'.wire ensures Backed(t, n', p) { if p in n.wire { assert Backed(t, n, p); } }
    forall p | p in n'.nodes ensures Account(t, n', p) {
      assert Account(t, n, p);
      Grows(Degree(n, p), n.book.reannounced, n'.book.reannounced);
    }
  }

  lemma Grows(d: nat, j: nat, k: nat)
    requires j <= k
    ensures d * (1 + j) <= d * (1 + k)
  {}

  lemma ReannounceAccounts(t: Topic, n: Net, sig: Bytes)
    requires Accounts(t, n) && Possible(t, n, Reannounce(sig))
    ensures Accounts(t, NetStep(t, n, Reannounce(sig)))
  {
    hide Accounts, Legal, Everyday;
    var m := n.(book := n.book.(reannounced := n.book.reannounced + 1));
    RoomForAnother(t, n);
    BookAccounts(t, n, m);
    AccountsSend(t, m, t.pub, n.nodes[t.pub].links, sig);
  }

  lemma RoomForAnother(t: Topic, n: Net)
    requires Accounts(t, n) && t.pub in n.nodes && Seen(t, n.nodes[t.pub])
    ensures n.book.sent[t.pub] + Degree(n, t.pub)
            <= Quota(t, n.(book := n.book.(reannounced := n.book.reannounced + 1)), t.pub)
  {
    hide Backed;
    assert Account(t, n, t.pub);
    AtLeastOnce(Degree(n, t.pub), n.book.reannounced);
  }

  lemma DeliverMoves(t: Topic, n: Net, p: Packet, order: seq<Peer>)
    requires t.Honest() && Accounts(t, n) && Possible(t, n, Deliver(p, order))
    ensures var s, m := n.nodes[p.dst], Received(t, n, p, order);
            MovesOn(t, n, m, p.dst) && Accounts(t, m)
            && (Takes(t, s, p) ==>
                  Seen(t, m.nodes[p.dst]) && m.book.sent[p.dst] == 0 && p.id == t.id && t.Verifies(t.id, p.sig))
            && (!Takes(t, s, p) ==> m.nodes == n.nodes)
  {
    hide OnInbound, Quota, Takes, Kept, Topic.Honest, Everyday, Legal;
    var s := n.nodes[p.dst];
    assert Account(t, n, p.dst);
    TakeEffect(t, s, p, order);
    KeptSelf(s);
    AccountsMove(t, n, Received(t, n, p, order), p.dst);
  }

  lemma KeptSelf(s: Node)
    ensures Kept(s, s)
  {}

  /** The delivery before its fan-out. */
  ghost function Received(t: Topic, n: Net, p: Packet, order: seq<Peer>): Net
    requires p in n.wire && p.dst in n.nodes && p.dst in n.book.applied
  {
    var s := n.nodes[p.dst];
    Net(n.nodes[p.dst := OnInbound(s, p.src, EdgeAnnounce(t.q, p.id, p.sig), order)], n.wire - multiset{p},
        n.book.(delivered := n.book.delivered + 1,
                applied := if Takes(t, s, p) then n.book.applied[p.dst := n.book.applied[p.dst] + 1]
                           else n.book.applied))
  }

  lemma DeliverSplits(t: Topic, n: Net, p: Packet, order: seq<Peer>)
    requires Possible(t, n, Deliver(p, order))
    ensures OnDeliver(t, n, p, order)
            == if Takes(t, n.nodes[p.dst], p)
               then Send(Received(t, n, p, order), p.dst, n.nodes[p.dst].links - {p.src}, p.id, p.sig)
               else Received(t, n, p, order)
  {
    hide OnInbound, Takes, Everyday, Legal;
  }

  lemma DeliverAccounts(t: Topic, n: Net, p: Packet, order: seq<Peer>)
    requires t.Honest() && Accounts(t, n) && Possible(t, n, Deliver(p, order))
    ensures Accounts(t, OnDeliver(t, n, p, order))
  {
    hide OnInbound, Accounts, OnDeliver, Takes, Topic.Honest;
    DeliverSplits(t, n, p, order);
    DeliverMoves(t, n, p, order);
    var s, m := n.nodes[p.dst], Received(t, n, p, order);
    if Takes(t, s, p) {
      AtLeastOnce(|s.links|, m.book.reannounced);
      assert Degree(m, p.dst) == |s.links|;
      Fewer(s.links, p.src);
      AccountsSend(t, m, p.dst, s.links - {p.src}, p.sig);
    }
  }

  lemma Fewer(xs: set<Peer>, x: Peer)
    ensures |xs - {x}| <= |xs|
  {
    if x !in xs { assert xs - {x} == xs; }
  }

  lemma LocalMoves(t: Topic, n: Net, at: Peer, e: Event)
    requires Possible(t, n, Local(at, e)) && at in n.nodes
    ensures MovesOn(t, n, NetStep(t, n, Local(at, e)), at)
    ensures Seen(t, NetStep(t, n, Local(at, e)).nodes[at]) <==> Seen(t, n.nodes[at])
  {
    hide Step, Legal, Everyday;
    EverydaySteady(t.q, n.nodes[at], e);
  }

  lemma LocalAccounts(t: Topic, n: Net, at: Peer, e: Event)
    requires Accounts(t, n) && Possible(t, n, Local(at, e))
    ensures Accounts(t, NetStep(t, n, Local(at, e)))
  {
    hide Step, Legal, Everyday, Quota;
    LocalMoves(t, n, at, e);
    assert Account(t, n, at);
    AccountsMove(t, n, NetStep(t, n, Local(at, e)), at);
  }

  lemma StepAccounts(t: Topic, n: Net, a: Act)
    requires t.Honest() && Accounts(t, n) && Possible(t, n, a)
    ensures Accounts(t, NetStep(t, n, a))
  {
    hide OnAnnounce, OnDeliver, Step, Topic.Honest, Accounts, Legal, Everyday;
    match a
    case Announce(b, sig, order) => AnnounceAccounts(t, n, b, sig, order);
    case Reannounce(sig) => ReannounceAccounts(t, n, sig);
    case Deliver(p, order) => DeliverAccounts(t, n, p, order);
    case Lose(p) => BookAccounts(t, n, NetStep(t, n, a));
    case Inject(p) => BookAccounts(t, n, NetStep(t, n, a));
    case Local(at, e) => LocalAccounts(t, n, at, e);
  }

  // ---- conservation ----

  lemma {:induction false} FanSize(src: Peer, to: set<Peer>, id: Digest, sig: Bytes)
    ensures |Fan(src, to, id, sig)| == |to|
    decreases |to|
  {
    if to == {} {
      assert Fan(src, to, id, sig) == {};
    } else {
      var m :| m in to;
      FanSize(src, to - {m}, id, sig);
      assert Fan(src, to, id, sig) == Fan(src, to - {m}, id, sig) + {Packet(src, m, id, sig)};
    }
  }

  lemma SendConserves(n: Net, src: Peer, to: set<Peer>, id: Digest, sig: Bytes)
    requires Conserved(n) && src in n.book.sent
    ensures Conserved(Send(n, src, to, id, sig))
  {
    hide Total, Fan;
    FanSize(src, to, id, sig);
    TotalPut(n.book.sent, src, n.book.sent[src] + |to|);
  }

  lemma AnnounceConserves(t: Topic, n: Net, b: Bytes, sig: Bytes, order: seq<Peer>)
    requires Conserved(n) && t.pub in n.nodes && t.pub in n.book.sent
    ensures Conserved(OnAnnounce(t, n, b, sig, order))
  {
    hide Total, OnProduced, Send;
    var s := n.nodes[t.pub];
    SendConserves(n.(nodes := n.nodes[t.pub := OnProduced(s, t.q, t.id, b, order)]), t.pub, s.links, t.id, sig);
  }

  lemma DeliverConserves(t: Topic, n: Net, p: Packet, order: seq<Peer>)
    requires Conserved(n) && Possible(t, n, Deliver(p, order))
    ensures Conserved(OnDeliver(t, n, p, order))
  {
    hide Total, OnInbound, OnDeliver, Takes, Send, Legal, Everyday;
    DeliverSplits(t, n, p, order);
    SendConserves(Received(t, n, p, order), p.dst, n.nodes[p.dst].links - {p.src}, p.id, p.sig);
  }

  lemma StepConserves(t: Topic, n: Net, a: Act)
    requires Conserved(n) && Possible(t, n, a)
    ensures Conserved(NetStep(t, n, a))
  {
    hide Total, Step, Legal, Everyday, OnDeliver, OnAnnounce, Send;
    match a
    case Announce(b, sig, order) => AnnounceConserves(t, n, b, sig, order);
    case Reannounce(sig) =>
      var m := n.(book := n.book.(reannounced := n.book.reannounced + 1));
      SendConserves(m, t.pub, n.nodes[t.pub].links, t.id, sig);
    case Deliver(p, order) => DeliverConserves(t, n, p, order);
    case Lose(p) =>
    case Inject(p) =>
    case Local(at, e) =>
  }

  // ---- the flood does not stall ----

  /** Links whose far end is already served stay so. */
  lemma MoveFlows(t: Topic, n: Net, n': Net, at: Peer, p: Peer, m: Peer)
    requires MovesOn(t, n, n', at) && p in n.nodes && m in n.nodes && Flows(t, n, p, m)
    requires p == at ==> Seen(t, n.nodes[at]) || !Seen(t, n'.nodes[at])
    requires OnItsWay(t, n, p, m) ==> OnItsWay(t, n', p, m) || Done(t, n', p, m)
    ensures Flows(t, n', p, m)
  {}

  lemma SendFlows(t: Topic, n: Net, src: Peer, to: set<Peer>, sig: Bytes, p: Peer, m: Peer)
    requires src in n.book.sent && p in n.nodes && m in n.nodes
    requires Flows(t, n, p, m) || (p == src && m in to)
    ensures Flows(t, Send(n, src, to, t.id, sig), p, m)
  {
    var n' := Send(n, src, to, t.id, sig);
    if p == src && m in to {
      assert Packet(p, m, t.id, sig) in Fan(src, to, t.id, sig);
      assert Packet(p, m, t.id, sig) in n'.wire;
    } else if OnItsWay(t, n, p, m) {
      var g :| Packet(p, m, t.id, g) in n.wire;
      assert Packet(p, m, t.id, g) in n'.wire;
    }
  }

  lemma AnnounceFlows(t: Topic, n: Net, b: Bytes, sig: Bytes, order: seq<Peer>, p: Peer, m: Peer)
    requires Accounts(t, n) && Possible(t, n, Announce(b, sig, order)) && p in n.nodes && m in n.nodes
             && Flows(t, n, p, m)
    ensures Flows(t, OnAnnounce(t, n, b, sig, order), p, m)
  {
    hide OnProduced, Accounts;
    AnnounceMoves(t, n, b, order);
    var s := n.nodes[t.pub];
    var n1 := n.(nodes := n.nodes[t.pub := OnProduced(s, t.q, t.id, b, order)]);
    if p != t.pub || Seen(t, s) { MoveFlows(t, n, n1, t.pub, p, m); }
    if !Seen(t, s) { SendFlows(t, n1, t.pub, s.links, sig, p, m); }
  }

  lemma DeliverFlows(t: Topic, n: Net, p: Packet, order: seq<Peer>, x: Peer, y: Peer)
    requires t.Honest() && Accounts(t, n) && Possible(t, n, Deliver(p, order))
    requires x in n.nodes && y in n.nodes && Flows(t, n, x, y)
    ensures Flows(t, OnDeliver(t, n, p, order), x, y)
  {
    hide OnInbound, Accounts, OnDeliver, Takes, Topic.Honest;
    DeliverSplits(t, n, p, order);
    DeliverMoves(t, n, p, order);
    var s, r := n.nodes[p.dst], Received(t, n, p, order);
    if x != p.dst || Seen(t, s) || !Takes(t, s, p) {
      DeliveredFlows(t, n, p, order, x, y);
    } else if y == p.src {
      assert Backed(t, n, p) by { WireBacked(t, n, p); }
    }
    if Takes(t, s, p) { SendFlows(t, r, p.dst, s.links - {p.src}, p.sig, x, y); }
  }

  lemma WireBacked(t: Topic, n: Net, p: Packet)
    requires Accounts(t, n) && p in n.wire
    ensures Backed(t, n, p) && (p.dst in n.nodes ==> Trusts(t, n.nodes[p.dst]))
  {
    if p.dst in n.nodes { assert Account(t, n, p.dst); }
  }

  lemma DeliveredFlows(t: Topic, n: Net, p: Packet, order: seq<Peer>, x: Peer, y: Peer)
    requires t.Honest() && Accounts(t, n) && Possible(t, n, Deliver(p, order))
    requires x in n.nodes && y in n.nodes && Flows(t, n, x, y)
    requires x != p.dst || Seen(t, n.nodes[p.dst]) || !Takes(t, n.nodes[p.dst], p)
    ensures Flows(t, Received(t, n, p, order), x, y)
  {
    hide OnInbound, Accounts, Takes, Topic.Honest;
    DeliverMoves(t, n, p, order);
    var r := Received(t, n, p, order);
    WireBacked(t, n, p);
    if OnItsWay(t, n, x, y) {
      var g :| Packet(x, y, t.id, g) in n.wire;
      if Packet(x, y, t.id, g) == p {
        if !Takes(t, n.nodes[p.dst], p) { RefusedMeansDone(t, n, p); }
      } else {
        assert Packet(x, y, t.id, g) in r.wire;
      }
    }
    MoveFlows(t, n, r, p.dst, x, y);
  }

  lemma StepFlows(t: Topic, n: Net, a: Act, p: Peer, m: Peer)
    requires t.Honest() && Accounts(t, n) && Possible(t, n, a) && !a.Lose?
    requires p in n.nodes && m in n.nodes && Flows(t, n, p, m)
    ensures NetStep(t, n, a).nodes.Keys == n.nodes.Keys && Flows(t, NetStep(t, n, a), p, m)
  {
    hide OnProduced, OnInbound, Accounts, Step, Legal, Everyday, Topic.Honest;
    match a
    case Announce(b, sig, order) => AnnounceFlows(t, n, b, sig, order, p, m);
    case Reannounce(sig) =>
      SendFlows(t, n.(book := n.book.(reannounced := n.book.reannounced + 1)), t.pub, n.nodes[t.pub].links, sig, p, m);
    case Deliver(k, order) => DeliverFlows(t, n, k, order, p, m);
    case Inject(k) =>
      if OnItsWay(t, n, p, m) {
        var g :| Packet(p, m, t.id, g) in n.wire;
        assert Packet(p, m, t.id, g) in NetStep(t, n, a).wire;
      }
    case Local(at, e) =>
      LocalMoves(t, n, at, e);
      MoveFlows(t, n, NetStep(t, n, a), at, p, m);
    case Lose(k) =>
  }

  // ---- whole runs ----

  ghost predicate SameLinks(n: Net, n': Net) {
    && n'.nodes.Keys == n.nodes.Keys
    && forall p :: p in n.nodes ==>
         n'.nodes[p].links == n.nodes[p].links && n'.nodes[p].edge.key == n.nodes[p].edge.key
  }

  lemma MoveSameLinks(t: Topic, n: Net, n': Net, at: Peer)
    requires MovesOn(t, n, n', at)
    ensures SameLinks(n, n')
  {}

  lemma StepSameLinks(t: Topic, n: Net, a: Act)
    requires t.Honest() && Accounts(t, n) && Possible(t, n, a)
    ensures SameLinks(n, NetStep(t, n, a))
  {
    hide OnProduced, OnInbound, Accounts, Step, Legal, Everyday, Topic.Honest, Takes, MovesOn, Fan, OnDeliver;
    match a
    case Announce(b, sig, order) =>
      AnnounceMoves(t, n, b, order);
      MoveSameLinks(t, n, n.(nodes := n.nodes[t.pub := OnProduced(n.nodes[t.pub], t.q, t.id, b, order)]), t.pub);
    case Reannounce(sig) =>
    case Deliver(p, order) =>
      DeliverSplits(t, n, p, order);
      DeliverMoves(t, n, p, order);
      MoveSameLinks(t, n, Received(t, n, p, order), p.dst);
    case Lose(p) =>
    case Inject(p) =>
    case Local(at, e) =>
      LocalMoves(t, n, at, e);
      MoveSameLinks(t, n, NetStep(t, n, a), at);
  }

  lemma LossesCounted(t: Topic, n: Net, a: Act)
    requires Possible(t, n, a)
    ensures NetStep(t, n, a).book.lost == n.book.lost + if a.Lose? then 1 else 0
  {
    hide OnProduced, OnInbound, Step, Legal, Everyday, Takes, Fan;
  }

  lemma NetRunStep(t: Topic, tr: seq<Net>, acts: seq<Act>, i: nat)
    requires IsNetRun(t, tr, acts) && i < |acts|
    ensures Possible(t, tr[i], acts[i]) && tr[i + 1] == NetStep(t, tr[i], acts[i])
  {
    hide NetStep, Possible, Silent;
  }

  ghost predicate NetInv(t: Topic, n: Net) {
    Accounts(t, n) && Conserved(n) && (n.book.lost == 0 ==> Flooding(t, n))
  }

  lemma SilentInv(t: Topic, n: Net)
    requires Silent(t, n)
    ensures NetInv(t, n)
  {
    hide Total;
    NothingSent(n);
  }

  lemma NothingSent(n: Net)
    requires n.book.sent == map p | p in n.nodes :: 0
    ensures Total(n.book.sent) == 0
  {
    TotalBound(n.book.sent, 0);
  }

  lemma {:induction false} EveryNetState(t: Topic, tr: seq<Net>, acts: seq<Act>, i: nat)
    requires t.Honest() && IsNetRun(t, tr, acts) && i <= |acts|
    ensures NetInv(t, tr[i]) && SameLinks(tr[0], tr[i])
    decreases i
  {
    hide NetStep, Possible, Accounts, Conserved, Flows, Topic.Honest;
    if i == 0 {
      SilentInv(t, tr[0]);
    } else {
      EveryNetState(t, tr, acts, i - 1);
      NetRunStep(t, tr, acts, i - 1);
      var n, a := tr[i - 1], acts[i - 1];
      StepAccounts(t, n, a);
      StepConserves(t, n, a);
      StepSameLinks(t, n, a);
      LossesCounted(t, n, a);
      if tr[i].book.lost == 0 {
        forall p, m | p in tr[i].nodes && m in tr[i].nodes ensures Flows(t, tr[i], p, m) { StepFlows(t, n, a, p, m); }
      }
    }
  }

  // ---- the theorems ----

  /** Whatever is lost, repeated or injected: each node applies and relays the edge at most once, a node
      of the network that has seen it recorded the publisher's id for it, and per-node sends stay
      within its links (times the announcements made, for the publisher). */
  lemma AppliedAtMostOnce(t: Topic, tr: seq<Net>, acts: seq<Act>, i: nat, p: Peer)
    requires t.Honest() && IsNetRun(t, tr, acts) && i <= |acts| && p in tr[0].nodes
    ensures p in tr[i].nodes && p in tr[i].book.applied && p in tr[i].book.sent
    ensures tr[i].book.applied[p] <= 1
    ensures tr[i].book.applied[p] == 1 ==> Seen(t, tr[i].nodes[p])
    ensures Seen(t, tr[i].nodes[p]) ==> (t.q, t.id) in tr[i].nodes[p].hist.recorded
    ensures Seen(t, tr[i].nodes[p]) && (forall k :: 0 <= k < i ==> ChainAgrees(t, acts[k])) ==>
              Holds(tr[i].nodes[p], t.q, t.id)
    ensures tr[i].book.sent[p] <= |tr[0].nodes[p].links| * (1 + if p == t.pub then tr[i].book.reannounced else 0)
  {
    hide NetStep, Possible, Topic.Honest, NetInv, SameLinks, Silent, ChainAgrees, Holds;
    EveryNetState(t, tr, acts, i);
    AccountSays(t, tr[0], tr[i], p);
    if forall k :: 0 <= k < i ==> ChainAgrees(t, acts[k]) { EveryNodeHolds(t, tr, acts, i); }
  }

  lemma AccountSays(t: Topic, n0: Net, n: Net, p: Peer)
    requires NetInv(t, n) && SameLinks(n0, n) && p in n0.nodes
    ensures p in n.nodes && p in n.book.applied && p in n.book.sent
    ensures n.book.applied[p] <= 1
    ensures n.book.applied[p] == 1 ==> Seen(t, n.nodes[p])
    ensures Seen(t, n.nodes[p]) ==> (t.q, t.id) in n.nodes[p].hist.recorded
    ensures n.book.sent[p] <= |n0.nodes[p].links| * (1 + if p == t.pub then n.book.reannounced else 0)
  {
    hide Flooding, Conserved, Backed;
    assert Account(t, n, p);
  }

  /** A delivery changes its node only if the id is one the publisher signed for that segment. */
  lemma UnsignedIsNeverApplied(t: Topic, tr: seq<Net>, acts: seq<Act>, i: nat)
    requires t.Honest() && IsNetRun(t, tr, acts) && i < |acts| && acts[i].Deliver?
    ensures acts[i].p.dst in tr[i].nodes && acts[i].p.dst in tr[i + 1].nodes
    ensures tr[i + 1].nodes[acts[i].p.dst] != tr[i].nodes[acts[i].p.dst] ==>
              acts[i].p.id == t.id && t.Verifies(t.id, acts[i].p.sig) && (t.stream, t.q, t.id) in t.published
  {
    hide OnInbound, Accounts, Takes, Topic.Honest, Topic.Verifies, Silent;
    EveryNetState(t, tr, acts, i);
    NetRunStep(t, tr, acts, i);
    var p, order := acts[i].p, acts[i].order;
    DeliverSplits(t, tr[i], p, order);
    DeliverMoves(t, tr[i], p, order);
    if Takes(t, tr[i].nodes[p.dst], p) { VerifiedIsPublished(t, t.id, p.sig); }
  }

  // ---- holding the id ----

  /** Every node that has seen the edge has the publisher's id on record, or has pruned past the segment. */
  ghost predicate AllHold(t: Topic, n: Net) {
    forall p :: p in n.nodes && Seen(t, n.nodes[p]) ==> Holds(n.nodes[p], t.q, t.id)
  }

  /** A chain edge for the segment names the publisher's id. */
  ghost predicate ChainAgrees(t: Topic, a: Act) {
    a.Local? && a.e.LiveEdge? && a.e.q == t.q ==> a.e.id == t.id
  }

  lemma MoveHolds(t: Topic, n: Net, n': Net, at: Peer)
    requires AllHold(t, n) && at in n.nodes && at in n'.nodes && n'.nodes == n.nodes[at := n'.nodes[at]]
    requires Seen(t, n'.nodes[at]) ==> Holds(n'.nodes[at], t.q, t.id)
    ensures AllHold(t, n')
  {
    hide Holds;
  }

  lemma LocalHolds(t: Topic, s: Node, e: Event)
    requires Legal(s, e) && Everyday(t.q, s, e) && (e.LiveEdge? && e.q == t.q ==> e.id == t.id)
    requires Seen(t, s) ==> Holds(s, t.q, t.id)
    ensures Seen(t, Step(s, e)) ==> Holds(Step(s, e), t.q, t.id)
  {
    hide Step, Legal, Everyday;
    EverydaySteady(t.q, s, e);
  }

  lemma StepHolds(t: Topic, n: Net, a: Act)
    requires t.Honest() && Accounts(t, n) && AllHold(t, n) && Possible(t, n, a) && ChainAgrees(t, a)
    ensures AllHold(t, NetStep(t, n, a))
  {
    hide OnProduced, OnInbound, Step, Legal, Everyday, Topic.Honest, Takes, Fan, Holds, Accounts, OnDeliver;
    match a
    case Announce(b, sig, order) =>
      ProducedSteady(t.q, n.nodes[t.pub], t.q, t.id, b, order);
      var m := n.(nodes := n.nodes[t.pub := OnProduced(n.nodes[t.pub], t.q, t.id, b, order)]);
      MoveHolds(t, n, m, t.pub);
    case Reannounce(sig) =>
    case Deliver(p, order) =>
      DeliverSplits(t, n, p, order);
      WireBacked(t, n, p);
      TakeEffect(t, n.nodes[p.dst], p, order);
      MoveHolds(t, n, Received(t, n, p, order), p.dst);
    case Lose(p) =>
    case Inject(p) =>
    case Local(at, e) =>
      LocalHolds(t, n.nodes[at], e);
      MoveHolds(t, n, NetStep(t, n, a), at);
  }

  lemma {:induction false} EveryNodeHolds(t: Topic, tr: seq<Net>, acts: seq<Act>, i: nat)
    requires t.Honest() && IsNetRun(t, tr, acts) && i <= |acts|
    requires forall k :: 0 <= k < i ==> ChainAgrees(t, acts[k])
    ensures AllHold(t, tr[i])
    decreases i
  {
    hide NetStep, Possible, Topic.Honest, Accounts, Holds, ChainAgrees, Conserved, Flooding;
    if i > 0 {
      EveryNodeHolds(t, tr, acts, i - 1);
      EveryNetState(t, tr, acts, i - 1);
      NetRunStep(t, tr, acts, i - 1);
      StepHolds(t, tr[i - 1], acts[i - 1]);
    }
  }

  ghost function Degrees(n: Net): map<Peer, nat> { map p | p in n.nodes :: |n.nodes[p].links| }

  /** The flood is bounded: all announcements ever sent fit in one per directed link, plus one per link of
      the publisher and re-announcement; so do deliveries, plus what outsiders injected. */
  lemma FloodIsBounded(t: Topic, tr: seq<Net>, acts: seq<Act>, i: nat)
    requires t.Honest() && IsNetRun(t, tr, acts) && i <= |acts| && t.pub in tr[0].nodes
    ensures Total(tr[i].book.sent) <= Total(Degrees(tr[0])) + |tr[0].nodes[t.pub].links| * tr[i].book.reannounced
    ensures tr[i].book.delivered <= Total(tr[i].book.sent) + tr[i].book.injected
    ensures |tr[i].wire| + tr[i].book.delivered + tr[i].book.lost == Total(tr[i].book.sent) + tr[i].book.injected
  {
    hide NetStep, Possible, Topic.Honest, Total, Silent, NetInv, SameLinks;
    EveryNetState(t, tr, acts, i);
    SendsWithinLinks(t, tr[0], tr[i]);
    Balance(t, tr[i]);
  }

  lemma Balance(t: Topic, n: Net)
    requires NetInv(t, n)
    ensures |n.wire| + n.book.delivered + n.book.lost == Total(n.book.sent) + n.book.injected
  {
    hide Accounts, Flooding, Total;
  }

  lemma SendsWithinLinks(t: Topic, n0: Net, n: Net)
    requires NetInv(t, n) && SameLinks(n0, n) && t.pub in n0.nodes
    ensures Total(n.book.sent) <= Total(Degrees(n0)) + |n0.nodes[t.pub].links| * n.book.reannounced
  {
    hide NetInv, Total, Caps;
    var d, k := |n0.nodes[t.pub].links|, n.book.reannounced;
    forall p | p in n0.nodes ensures p in n.book.sent && p in Caps(t, n0, k) && n.book.sent[p] <= Caps(t, n0, k)[p] {
      WithinCap(t, n0, n, p);
    }
    assert n.book.sent.Keys == n0.nodes.Keys == Caps(t, n0, k).Keys by { SentKeys(t, n0, n); }
    TotalMonotone(n.book.sent, Caps(t, n0, k));
    CapsTotal(t, n0, k);
  }

  ghost function Caps(t: Topic, n: Net, k: nat): map<Peer, nat>
    requires t.pub in n.nodes
  {
    Degrees(n)[t.pub := |n.nodes[t.pub].links| + |n.nodes[t.pub].links| * k]
  }

  lemma SentKeys(t: Topic, n0: Net, n: Net)
    requires NetInv(t, n) && SameLinks(n0, n) && t.pub in n0.nodes
    ensures n.book.sent.Keys == n0.nodes.Keys == Caps(t, n0, n.book.reannounced).Keys
  {
    hide Flooding, Conserved, Backed, Account;
  }

  lemma WithinCap(t: Topic, n0: Net, n: Net, p: Peer)
    requires NetInv(t, n) && SameLinks(n0, n) && t.pub in n0.nodes && p in n0.nodes
    ensures p in n.book.sent && p in Caps(t, n0, n.book.reannounced)
            && n.book.sent[p] <= Caps(t, n0, n.book.reannounced)[p]
  {
    hide NetInv, SameLinks;
    AccountSays(t, n0, n, p);
    Distribute(|n0.nodes[t.pub].links|, n.book.reannounced);
  }

  lemma CapsTotal(t: Topic, n: Net, k: nat)
    requires t.pub in n.nodes
    ensures Total(Caps(t, n, k)) == Total(Degrees(n)) + |n.nodes[t.pub].links| * k
  {
    hide Total;
    var d := |n.nodes[t.pub].links|;
    TotalPut(Degrees(n), t.pub, d + d * k);
  }

  lemma Distribute(d: nat, k: nat)
    ensures d * (1 + k) == d + d * k
  {}

  /** A chain of links from the publisher; each next node holds the key and has not banned the one before. */
  ghost predicate Joined(t: Topic, n: Net, path: seq<Peer>) {
    && |path| > 0 && path[0] == t.pub
    && (forall i :: 0 <= i < |path| ==> path[i] in n.nodes)
    && (forall i :: 0 <= i < |path| - 1 ==>
          path[i + 1] in n.nodes[path[i]].links && Open(n.nodes[path[i + 1]], path[i]))
  }

  ghost predicate Open(s: Node, from: Peer) { s.edge.key.Some? && !(from in s.peers && s.peers[from].banned) }

  lemma {:induction false} FloodCrosses(t: Topic, n: Net, path: seq<Peer>, k: nat)
    requires Flooding(t, n) && n.wire == multiset{} && Joined(t, n, path) && Seen(t, n.nodes[t.pub]) && k < |path|
    ensures Seen(t, n.nodes[path[k]])
    decreases k
  {
    if k > 0 {
      FloodCrosses(t, n, path, k - 1);
      assert Flows(t, n, path[k - 1], path[k]);
      assert Open(n.nodes[path[k - 1 + 1]], path[k - 1]);
    }
  }

  /** On lossless links, once nothing is in flight, every node joined to the publisher knows the id. */
  lemma FloodReachesEveryone(t: Topic, tr: seq<Net>, acts: seq<Act>, i: nat, path: seq<Peer>)
    requires t.Honest() && IsNetRun(t, tr, acts) && i <= |acts|
    requires tr[i].book.lost == 0 && tr[i].wire == multiset{}
    requires Joined(t, tr[i], path) && Seen(t, tr[i].nodes[t.pub])
    ensures forall k :: 0 <= k < |path| ==>
              Seen(t, tr[i].nodes[path[k]]) && (t.q, t.id) in tr[i].nodes[path[k]].hist.recorded
    ensures (forall k :: 0 <= k < i ==> ChainAgrees(t, acts[k])) ==>
              forall k :: 0 <= k < |path| ==> Holds(tr[i].nodes[path[k]], t.q, t.id)
  {
    hide NetStep, Possible, Topic.Honest, Flows, ChainAgrees, Holds;
    EveryNetState(t, tr, acts, i);
    if forall k :: 0 <= k < i ==> ChainAgrees(t, acts[k]) { EveryNodeHolds(t, tr, acts, i); }
    forall k | 0 <= k < |path|
      ensures Seen(t, tr[i].nodes[path[k]]) && (t.q, t.id) in tr[i].nodes[path[k]].hist.recorded
    {
      FloodCrosses(t, tr[i], path, k);
      assert Account(t, tr[i], path[k]);
    }
  }
}
