/** Fixed-width integers of the SCALE codec (section A.2.2 of the Polkadot Protocol Specification)
    and the bytes a publisher signs for a live edge (crates/unstation-core/src/node.rs). */
module Wire {
  import opened Common

  // ---- little-endian fixed-width integers ----

  function Pow256(k: nat): (p: nat) ensures p > 0 { if k == 0 then 1 else 256 * Pow256(k - 1) }

  function LE(n: nat, k: nat): (r: Bytes)
    ensures |r| == k
    decreases k
  {
    if k == 0 then [] else [n % 256] + LE(n / 256, k - 1)
  }

  function FromLE(b: Bytes): nat { if b == [] then 0 else b[0] + 256 * FromLE(b[1..]) }

  lemma {:induction false} LERoundTrip(n: nat, k: nat)
    requires n < Pow256(k)
    ensures FromLE(LE(n, k)) == n
    decreases k
  {
    if k > 0 {
      LERoundTrip(n / 256, k - 1);
      assert LE(n, k)[1..] == LE(n / 256, k - 1);
    }
  }

  lemma Widths()
    ensures Pow256(2) == 0x1_0000 && Pow256(4) == U32_MAX + 1 && Pow256(8) == U64_MAX + 1
  {
    assert Pow256(1) == 256;
    assert Pow256(3) == 256 * Pow256(2);
    assert Pow256(5) == 256 * Pow256(4);
    assert Pow256(6) == 256 * Pow256(5);
    assert Pow256(7) == 256 * Pow256(6);
  }

  // ---- the signed live-edge payload ----

  /** "unstation-edge-v1" */
  const EDGE_SIGN_TAG: Bytes := [117, 110, 115, 116, 97, 116, 105, 111, 110, 45, 101, 100, 103, 101, 45, 118, 49]

  function EdgePayload(stream: Digest, q: Seq, id: Digest): Bytes {
    EDGE_SIGN_TAG + stream + LE(q, 8) + id
  }

  lemma PayloadParts(stream: Digest, q: Seq, id: Digest)
    ensures var p := EdgePayload(stream, q, id);
            |p| == 89 && p[17..49] == stream && p[49..57] == LE(q, 8) && p[57..] == id
  {
    hide LE;
    assert |EDGE_SIGN_TAG| == 17;
  }

  /** One signature covers one (stream, segment, id): the payload determines all three. */
  lemma EdgePayloadBinds(s1: Digest, q1: Seq, id1: Digest, s2: Digest, q2: Seq, id2: Digest)
    requires q1 <= U64_MAX && q2 <= U64_MAX
    requires EdgePayload(s1, q1, id1) == EdgePayload(s2, q2, id2)
    ensures s1 == s2 && q1 == q2 && id1 == id2
  {
    Widths();
    LERoundTrip(q1, 8);
    LERoundTrip(q2, 8);
    PayloadParts(s1, q1, id1);
    PayloadParts(s2, q2, id2);
  }
}
