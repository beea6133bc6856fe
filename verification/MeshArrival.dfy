/** From the wire to the player: the frames of one segment, as `send_segment_on` cuts them, handed to a node in any
    order and with any repeats. */
module MeshArrival {
  import opened Common
  import opened BufferMaps
  import opened Reassembly
  import opened SegmentStores
  import opened Wire
  import opened MeshState
  import MeshOutcomes
  import Framing

  /** The node after hearing these frames from `p`; what does not decode to a chunk is left aside. */
  ghost function Hear(s: Node, p: Peer, frames: seq<Bytes>, order: seq<Peer>): Node
    decreases |frames|
  {
    if frames == [] then s else
      var u := Hear(s, p, frames[..|frames| - 1], order);
      match Framing.Decode(frames[|frames| - 1])
      case Some(c) => OnInbound(u, p, SegmentData(c.q, c.total, c.offset, c.bytes), order)
      case None => u
  }

  ghost predicate Covers(data: Bytes, ks: seq<nat>) { forall k :: 0 <= k < Framing.ChunkCount(data) ==> k in ks }

  /** A missing segment of known id that `p`, unbanned, may send us now, and for which there is room. */
  ghost predicate Awaited(s: Node, p: Peer, q: Seq, data: Bytes) {
    && !(p in s.peers && s.peers[p].banned) && !s.win.local.Has(q)
    && q in s.edge.ids && s.edge.ids[q] == s.env.crypto.hash(data)
    && MeshOutcomes.InReach(s, p, q) && (p, q) !in s.asm.reasm && !SlotRefused(s, (p, q), |data|)
  }

  /** Some chunks are in, and nothing else has happened. */
  ghost predicate Gathering(s: Node, u: Node, p: Peer, q: Seq, data: Bytes, ks: seq<nat>)
    requires Framing.Numbers(data, ks)
  {
    && u == s.(asm := u.asm)
    && (if ks == [] then u == s
        else (p, q) in u.asm.reasm && u.asm.reasm[(p, q)].r == Framing.Feed(data, ks))
  }

  /** One more chunk: it is gathered, or it completes the segment and the segment is played. */
  lemma OneMoreChunk(s: Node, u: Node, p: Peer, q: Seq, data: Bytes, ks: seq<nat>, k: nat, order: seq<Peer>)
    requires 0 < |data| <= MAX_SEGMENT_BYTES && k < Framing.ChunkCount(data) && Framing.Numbers(data, ks)
    requires Awaited(s, p, q, data) && Gathering(s, u, p, q, data, ks)
    ensures var t := OnSegmentData(u, p, q, |data|, Framing.At(k), Framing.ChunkAt(data, k), order);
            if Covers(data, ks + [k]) then MeshOutcomes.Accepted(s.(asm := t.asm), t, p, q, s.edge.ids[q], data)
                                           && (p, q) !in t.asm.reasm
            else Gathering(s, t, p, q, data, ks + [k])
  {
    hide Reasm.Add, Reasm.Gain, Reasm.Complete, Reasm.Assembled, BufMap.Has, Total, Restrict, Buffered, AcceptSegment,
        MeshOutcomes.Accepted, Framing.ChunkAt, Framing.At, Framing.ChunkCount, Covers;
    var more := ks + [k];
    Framing.AnyOrderReassembles(data, more);
    var u1 := BufferChunk(u, (p, q), |data|, Framing.At(k), Framing.ChunkAt(data, k));
    var r := u1.asm.reasm[(p, q)].r;
    assert r == Framing.Feed(data, more) by { FeedSnoc(data, ks, k); FeedNone(data); }
    hide Framing.Feed;
    CoversIs(data, more);
    if r.Complete() {
      assert r.Assembled() == data;
      var d := DropSlots(u1, {(p, q)});
      MeshOutcomes.AcceptIsAccepted(d, p, q, s.edge.ids[q], data, order);
      Relocated(s, d, AcceptSegment(d, p, q, s.edge.ids[q], data, order), p, q, data);
    }
  }

  lemma CoversIs(data: Bytes, ks: seq<nat>)
    ensures Covers(data, ks) <==> forall k :: 0 <= k < Framing.ChunkCount(data) ==> k in ks
  {}

  lemma FeedSnoc(data: Bytes, ks: seq<nat>, k: nat)
    requires k < Framing.ChunkCount(data) && Framing.Numbers(data, ks)
    ensures Framing.Feed(data, ks + [k])
            == Framing.Feed(data, ks).Add(Framing.At(k), Framing.ChunkAt(data, k))
  {
    hide Reasm.Add, Framing.ChunkAt, Framing.At;
    assert (ks + [k])[..|ks|] == ks;
  }

  lemma FeedNone(data: Bytes)
    ensures Framing.Feed(data, []) == Fresh(|data|)
  {}

  /** Slots apart, the node that accepts is the one that began. */
  lemma Relocated(s: Node, d: Node, t: Node, p: Peer, q: Seq, data: Bytes)
    requires q in s.edge.ids && d == s.(asm := d.asm) && MeshOutcomes.Accepted(d, t, p, q, s.edge.ids[q], data)
    ensures t.asm == d.asm && MeshOutcomes.Accepted(s.(asm := t.asm), t, p, q, s.edge.ids[q], data)
  {
    hide Store.Insert, BufMap.Members, MeshOutcomes.Thanked;
  }

  /** The frames of a segment, from an unbanned peer that may send it, in any order and with any repeats: until the
      last distinct one is in nothing is played, and that one has exactly the segment played. */
  lemma {:induction false} SentSegmentIsPlayed(s: Node, p: Peer, q: Seq, data: Bytes, ks: seq<nat>, frames: seq<Bytes>,
                                               order: seq<Peer>)
    requires q <= U64_MAX && 0 < |data| <= MAX_SEGMENT_BYTES && Framing.Numbers(data, ks)
    requires Framing.Frames(q, data, ks, frames) && Awaited(s, p, q, data)
    requires ks != [] ==> !Covers(data, ks[..|ks| - 1])
    ensures var t := Hear(s, p, frames, order);
            if Covers(data, ks)
            then MeshOutcomes.Accepted(s.(asm := t.asm), t, p, q, s.edge.ids[q], data) && (p, q) !in t.asm.reasm
            else Gathering(s, t, p, q, data, ks) && t.hist == s.hist
    decreases |ks|
  {
    hide OnSegmentData, Framing.Decode, Framing.Derived, Framing.Message, Framing.ChunkCount, MeshOutcomes.Accepted,
        Covers,
        Framing.Feed;
    if ks == [] {
      NothingCovers(data);
    } else {
      var init, k, n := ks[..|ks| - 1], ks[|ks| - 1], |ks| - 1;
      FewerCover(data, ks);
      SentSegmentIsPlayed(s, p, q, data, init, frames[..n], order);
      var u := Hear(s, p, frames[..n], order);
      Framing.MessageFits(q, data, k);
      Framing.ChunkRoundTrip(Framing.Message(q, data, k));
      assert init + [k] == ks;
      MessageIs(q, data, k);
      OneMoreChunk(s, u, p, q, data, init, k, order);
    }
  }

  lemma MessageIs(q: Seq, data: Bytes, k: nat)
    requires k < Framing.ChunkCount(data)
    ensures Framing.Message(q, data, k) == Framing.Chunk(q, 0, |data|, Framing.At(k), Framing.ChunkAt(data, k))
  {
    hide Framing.ChunkAt, Framing.At;
  }

  lemma NothingCovers(data: Bytes)
    requires |data| > 0
    ensures !Covers(data, [])
  {
    var none: seq<nat> := [];
    assert Framing.ChunkCount(data) > 0 && 0 !in none;
  }

  lemma FewerCover(data: Bytes, ks: seq<nat>)
    requires ks != [] && !Covers(data, ks[..|ks| - 1])
    ensures |ks| > 1 ==> !Covers(data, ks[..|ks| - 1][..|ks| - 2])
  {
    if |ks| > 1 {
      var init := ks[..|ks| - 1];
      var k :| 0 <= k < Framing.ChunkCount(data) && k !in init;
      assert k !in init[..|ks| - 2];
    }
  }
}
