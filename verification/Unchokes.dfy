/** Upload slots (crates/unstation-core/src/node.rs, `select_unchokes`): which peers a review serves. The best
    peers get the regular slots, and one more slot rotates among the others. */
module Unchokes {
  import opened Common
  import MeshState
  import MeshEffects

  const UPLOAD_SLOTS: nat := 4

  /** What a peer has given us, and how far away it is. */
  datatype Stat = Stat(peer: Peer, throughput: real, rtt: real)

  /** A viewer ranks by what it was given; a node without a feed of its own to fill, by distance. */
  predicate Better(role: MeshState.Role, a: Stat, b: Stat) {
    if role.Viewer? then a.throughput > b.throughput else a.rtt < b.rtt
  }

  /** `x` goes in behind everything that is not worse. */
  function Place(role: MeshState.Role, ranked: seq<Stat>, x: Stat): seq<Stat> {
    if ranked == [] || !Better(role, x, ranked[|ranked| - 1]) then ranked + [x]
    else Place(role, ranked[..|ranked| - 1], x) + [ranked[|ranked| - 1]]
  }

  /** Best first; equals keep their order. */
  function Ranked(role: MeshState.Role, peers: seq<Stat>): seq<Stat> {
    if peers == [] then [] else Place(role, Ranked(role, peers[..|peers| - 1]), peers[|peers| - 1])
  }

  function Ids(stats: seq<Stat>): set<Peer> { set i | 0 <= i < |stats| :: stats[i].peer }

  /** The rank that gets the rotating slot. */
  function Optimistic(n: nat, slots: nat, turn: nat): (k: nat)
    requires slots < n
    ensures slots <= k < n
  {
    slots + turn % (n - slots)
  }

  function Select(peers: seq<Stat>, role: MeshState.Role, slots: nat, turn: nat): set<Peer> {
    var ranked := Ranked(role, peers);
    if |ranked| <= slots then Ids(ranked)
    else Ids(ranked[..slots]) + {ranked[Optimistic(|ranked|, slots, turn)].peer}
  }

  // ---- ranking ----

  ghost predicate Sorted(role: MeshState.Role, ranked: seq<Stat>) {
    forall i, j :: 0 <= i < j < |ranked| ==> !Better(role, ranked[j], ranked[i])
  }

  lemma {:induction false} PlaceAdds(role: MeshState.Role, ranked: seq<Stat>, x: Stat)
    ensures multiset(Place(role, ranked, x)) == multiset(ranked) + multiset{x}
    decreases |ranked|
  {
    hide Better;
    if ranked != [] {
      PlaceAdds(role, ranked[..|ranked| - 1], x);
      assert ranked == ranked[..|ranked| - 1] + [ranked[|ranked| - 1]];
    }
  }

  lemma {:induction false} PlaceSorts(role: MeshState.Role, ranked: seq<Stat>, x: Stat)
    requires Sorted(role, ranked)
    ensures Sorted(role, Place(role, ranked, x))
    decreases |ranked|
  {
    if ranked == [] || !Better(role, x, ranked[|ranked| - 1]) {
      LastSorted(role, ranked, x);
    } else {
      var init, last := ranked[..|ranked| - 1], ranked[|ranked| - 1];
      PlaceSorts(role, init, x);
      var more := Place(role, init, x);
      PlaceAdds(role, init, x);
      forall e | e in more ensures !Better(role, last, e) {
        assert e in multiset(more);
        if e != x { assert e in init; }
      }
      AppendSorted(role, more, last);
    }
  }

  lemma LastSorted(role: MeshState.Role, ranked: seq<Stat>, x: Stat)
    requires Sorted(role, ranked) && (ranked == [] || !Better(role, x, ranked[|ranked| - 1]))
    ensures Sorted(role, ranked + [x])
  {}

  lemma AppendSorted(role: MeshState.Role, ranked: seq<Stat>, x: Stat)
    requires Sorted(role, ranked) && forall e :: e in ranked ==> !Better(role, x, e)
    ensures Sorted(role, ranked + [x])
  {}

  /** Ranking loses nobody, invents nobody, and puts nobody before a better peer. */
  lemma {:induction false} RankedSorts(role: MeshState.Role, peers: seq<Stat>)
    ensures Sorted(role, Ranked(role, peers)) && multiset(Ranked(role, peers)) == multiset(peers)
    decreases |peers|
  {
    if peers != [] {
      var init, x := peers[..|peers| - 1], peers[|peers| - 1];
      RankedSorts(role, init);
      PlaceSorts(role, Ranked(role, init), x);
      PlaceAdds(role, Ranked(role, init), x);
      assert peers == init + [x];
    }
  }

  /** One entry per peer, as the table gives. */
  ghost predicate OnePerPeer(stats: seq<Stat>) {
    forall i, j :: 0 <= i < j < |stats| ==> stats[i].peer != stats[j].peer
  }

  lemma {:induction false} IdsCount(stats: seq<Stat>)
    requires OnePerPeer(stats)
    ensures |Ids(stats)| == |stats|
    decreases |stats|
  {
    if stats == [] {
      assert Ids(stats) == {};
    } else {
      var init, x := stats[..|stats| - 1], stats[|stats| - 1];
      IdsCount(init);
      assert Ids(stats) == Ids(init) + {x.peer} && x.peer !in Ids(init);
    }
  }

  lemma {:induction false} SamePeers(xs: seq<Stat>, ys: seq<Stat>)
    requires multiset(xs) == multiset(ys) && OnePerPeer(xs)
    ensures OnePerPeer(ys) && |ys| == |xs| && forall x :: x in xs <==> x in ys
  {
    assert |multiset(xs)| == |xs| && |multiset(ys)| == |ys|;
    forall x ensures x in xs <==> x in ys { assert x in multiset(xs) <==> x in multiset(ys); }
    forall i, j | 0 <= i < j < |ys| ensures ys[i].peer != ys[j].peer {
      assert ys[i] in xs && ys[j] in xs;
      if ys[i].peer == ys[j].peer {
        assert ys[i] == ys[j];
        Twice(ys, i, j);
        Once(xs, ys[i]);
      }
    }
  }

  lemma Twice(ys: seq<Stat>, i: nat, j: nat)
    requires i < j < |ys| && ys[i] == ys[j]
    ensures multiset(ys)[ys[i]] >= 2
  {
    assert ys == ys[..j] + [ys[j]] + ys[j + 1..];
    assert ys[i] in multiset(ys[..j]) by { assert ys[..j][i] == ys[i]; }
  }

  lemma {:induction false} Once(xs: seq<Stat>, x: Stat)
    requires OnePerPeer(xs)
    ensures multiset(xs)[x] <= 1
    decreases |xs|
  {
    if xs != [] {
      var init, last := xs[..|xs| - 1], xs[|xs| - 1];
      Once(init, x);
      assert xs == init + [last];
      if x == last { assert x !in init; }
    }
  }

  lemma RankedPeers(role: MeshState.Role, peers: seq<Stat>)
    requires OnePerPeer(peers)
    ensures var r := Ranked(role, peers);
            Sorted(role, r) && OnePerPeer(r) && |r| == |peers| && forall x :: x in peers <==> x in r
  {
    RankedSorts(role, peers);
    SamePeers(peers, Ranked(role, peers));
  }

  // ---- what a review chooses ----

  /** `best` are the ids of `n` of the peers, none worse than any peer left out. */
  ghost predicate Best(best: set<Peer>, n: nat, peers: seq<Stat>, role: MeshState.Role) {
    && |best| == n && best <= Ids(peers)
    && forall x, y :: x in peers && y in peers && x.peer in best && y.peer !in best ==> !Better(role, y, x)
  }

  lemma TopIsBest(role: MeshState.Role, peers: seq<Stat>, slots: nat)
    requires OnePerPeer(peers) && slots <= |peers|
    ensures |Ranked(role, peers)| == |peers| && Best(Ids(Ranked(role, peers)[..slots]), slots, peers, role)
  {
    RankedPeers(role, peers);
    var r := Ranked(role, peers);
    var top := r[..slots];
    IdsCount(top);
    assert forall t :: 0 <= t < slots ==> top[t] == r[t] && top[t].peer in Ids(top);
    forall p | p in Ids(top) ensures p in Ids(peers) {
      var i :| 0 <= i < |top| && top[i].peer == p;
      assert r[i] in peers;
      var j :| 0 <= j < |peers| && peers[j] == r[i];
    }
    forall x, y | x in peers && y in peers && x.peer in Ids(top) && y.peer !in Ids(top) ensures !Better(role, y, x) {
      var i :| 0 <= i < |top| && top[i].peer == x.peer;
      assert x in r && y in r;
      var k :| 0 <= k < |r| && r[k] == x;
      var j :| 0 <= j < |r| && r[j] == y;
      assert k == i;
    }
  }

  /** A review serves everybody while there are slots for all; otherwise the best `slots` peers and exactly one
      of the others. */
  lemma SelectExactly(peers: seq<Stat>, role: MeshState.Role, slots: nat, turn: nat)
    requires OnePerPeer(peers)
    ensures var chosen := Select(peers, role, slots, turn);
            && chosen <= Ids(peers) && |chosen| == Min(|peers|, slots + 1)
            && exists best :: Best(best, Min(|peers|, slots), peers, role) && best <= chosen
  {
    hide Ranked, Best, Optimistic, Ids, Sorted;
    RankedPeers(role, peers);
    var r, n := Ranked(role, peers), Min(|peers|, slots);
    TopIsBest(role, peers, n);
    BestWithin(Ids(r[..n]), n, peers, role);
    if |r| <= slots {
      assert r[..n] == r;
    } else {
      OneMore(r, peers, slots, Optimistic(|r|, slots, turn));
    }
  }

  lemma OneMore(r: seq<Stat>, peers: seq<Stat>, slots: nat, k: nat)
    requires OnePerPeer(r) && slots <= k < |r| && forall x :: x in peers <==> x in r
    ensures r[k].peer !in Ids(r[..slots]) && r[k].peer in Ids(peers)
  {
    assert r[k] in peers;
    var j :| 0 <= j < |peers| && peers[j] == r[k];
  }

  lemma BestWithin(best: set<Peer>, n: nat, peers: seq<Stat>, role: MeshState.Role)
    requires Best(best, n, peers, role)
    ensures best <= Ids(peers) && |best| == n
  {}

  /** The turn counter's next value: it wraps as an unsigned 64-bit number. */
  function Turn(start: nat, k: nat): nat { (start + k) % (U64_MAX + 1) }

  /** `n` consecutive turns, somewhere among the next `2 * n`, run without a wrap; one of them leaves `want`. */
  lemma SomeTurn(start: nat, n: nat, want: nat) returns (k: nat)
    requires start <= U64_MAX && want < n <= U64_MAX
    ensures k < 2 * n && Turn(start, k) % n == want
  {
    if start + n <= U64_MAX + 1 {
      k := Ahead(start, n, want);
      Remainder(U64_MAX + 1, 0, start + k);
    } else {
      k := U64_MAX + 1 - start + want;
      Remainder(U64_MAX + 1, 1, want);
      Remainder(n, 0, want);
    }
  }

  lemma Ahead(start: nat, n: nat, want: nat) returns (k: nat)
    requires want < n
    ensures k < n && (start + k) % n == want
  {
    var q, r := start / n, start % n;
    assert start == n * q + r;
    if r <= want {
      k := want - r;
      Remainder(n, q, want);
    } else {
      k := n - r + want;
      assert n * (q + 1) == n * q + n;
      Remainder(n, q + 1, want);
    }
  }

  lemma Remainder(n: nat, q: nat, r: nat)
    requires r < n
    ensures (n * q + r) % n == r
  {
    var m := n * q + r;
    var k := m / n;
    assert n * k <= m < n * k + n;
    if q > k { Widen(n, k + 1, q); } else if q < k { Widen(n, q + 1, k); }
  }

  lemma Widen(n: nat, a: nat, b: nat)
    requires 0 < a <= b
    ensures n * (a - 1) + n <= n * b
  {
    assert n * b == n * (a - 1) + n * (b - a + 1);
    assert n * (b - a + 1) == n * (b - a) + n;
  }

  /** While the table stays as it is, everyone is served within twice as many reviews as there are peers without
      a regular slot, even across a wrap of the turn counter: nobody is starved. */
  lemma NobodyIsStarved(peers: seq<Stat>, role: MeshState.Role, slots: nat, start: nat, p: Peer) returns (k: nat)
    requires OnePerPeer(peers) && p in Ids(peers) && start <= U64_MAX && |peers| <= U64_MAX
    ensures k == 0 || k < 2 * (|peers| - slots)
    ensures p in Select(peers, role, slots, Turn(start, k))
  {
    RankedPeers(role, peers);
    var r := Ranked(role, peers);
    var j := RankOf(r, peers, p);
    hide Ranked, Ids, Sorted, OnePerPeer, Optimistic;
    k := 0;
    if |r| <= slots {
      Listed(r, j);
    } else if j < slots {
      Listed(r[..slots], j);
    } else {
      k := TurnFor(|r|, slots, start, j);
    }
  }

  lemma RankOf(r: seq<Stat>, peers: seq<Stat>, p: Peer) returns (j: nat)
    requires p in Ids(peers) && forall x :: x in peers <==> x in r
    ensures j < |r| && r[j].peer == p
  {
    var i :| 0 <= i < |peers| && peers[i].peer == p;
    assert peers[i] in r;
    j :| 0 <= j < |r| && r[j] == peers[i];
  }

  lemma Listed(stats: seq<Stat>, i: nat)
    requires i < |stats|
    ensures stats[i].peer in Ids(stats)
  {}

  lemma TurnFor(n: nat, slots: nat, start: nat, j: nat) returns (k: nat)
    requires slots <= j < n <= U64_MAX && start <= U64_MAX
    ensures k < 2 * (n - slots) && Optimistic(n, slots, Turn(start, k)) == j
  {
    hide Turn;
    k := SomeTurn(start, n - slots, j - slots);
  }

  // ---- the node's review ----

  /** The table as the review sees it; a peer that has given us nothing yet ranks last. */
  function StatsOf(peers: map<Peer, MeshState.PeerState>, order: seq<Peer>): seq<Stat>
    requires forall i :: 0 <= i < |order| ==> order[i] in peers
  {
    seq(|order|, i requires 0 <= i < |order| =>
          Stat(order[i], peers[order[i]].throughput.Or(0.0), peers[order[i]].rtt.Or(U64_MAX as real)))
  }

  ghost function Served(s: MeshState.Node): set<Peer> { set p | p in s.peers && !s.peers[p].choked }

  /** A viewer's review leaves exactly the chosen peers served: all of them if there are at most five, and
      otherwise the four that have given us most and one other. */
  lemma ReviewServesTheBest(s: MeshState.Node, t: MeshState.TickInput, turn: nat)
    requires Enumerates(t.peerOrder, s.peers.Keys) && s.cfg.role.Viewer? && MeshEffects.Due(s, t.dt)
    requires Walks(s, t) && t.unchoked == Select(StatsOf(s.peers, t.peerOrder), s.cfg.role, UPLOAD_SLOTS, turn)
    ensures var (n, stats) := (MeshState.OnTick(s, t), StatsOf(s.peers, t.peerOrder));
            && Served(n) == t.unchoked && |Served(n)| == Min(|s.peers|, 5)
            && exists best :: Best(best, Min(|s.peers|, 4), stats, s.cfg.role) && best <= Served(n)
  {
    hide MeshState.OnTick, Select, Best;
    var stats := StatsOf(s.peers, t.peerOrder);
    SelectExactly(stats, s.cfg.role, UPLOAD_SLOTS, turn);
    OrderCounts(t.peerOrder, s.peers.Keys);
    var n := MeshState.OnTick(s, t);
    forall p ensures p in Served(n) <==> p in t.unchoked {
      if p in s.peers {
        MeshEffects.TickTells(p, s, t);
      } else {
        MeshEffects.TickStranger(p, s, t);
        NotListed(s, t, p);
      }
    }
  }

  /** The order lists peers of the table. */
  ghost predicate Walks(s: MeshState.Node, t: MeshState.TickInput) {
    forall i :: 0 <= i < |t.peerOrder| ==> t.peerOrder[i] in s.peers
  }

  lemma NotListed(s: MeshState.Node, t: MeshState.TickInput, p: Peer)
    requires Walks(s, t) && p !in s.peers
    ensures p !in Ids(StatsOf(s.peers, t.peerOrder))
  {}

  lemma {:induction false} OrderCounts(order: seq<Peer>, xs: set<Peer>)
    requires Enumerates(order, xs)
    ensures |order| == |xs|
    decreases |order|
  {
    if order == [] {
      assert xs == {};
    } else {
      var init, x := order[..|order| - 1], order[|order| - 1];
      assert order == init + [x];
      OrderCounts(init, xs - {x});
    }
  }
}
