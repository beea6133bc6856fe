/** Segment chunks on the wire: the hand-written frame against the derived SCALE encoding of
    `MeshMsg::SegmentData`, and a sent segment against the reassembler that receives it
    (crates/unstation-core/src/node.rs, protocol.rs, reassembly.rs). */
module Framing {
  import opened Common
  import opened Wire
  import opened Reassembly

  // ---- the derived codec: a variant index, then each field in declaration order ----

  datatype Kind = KU16 | KU32 | KU64 | KBytes
  datatype Field = U16(n: nat) | U32(n: nat) | U64(n: nat) | Blob(b: Bytes)

  function KindOf(f: Field): Kind {
    match f case U16(_) => KU16 case U32(_) => KU32 case U64(_) => KU64 case Blob(_) => KBytes
  }

  predicate Fits(f: Field) {
    match f
    case U16(n) => n < Pow256(2)
    case U32(n) => n < Pow256(4)
    case U64(n) => n < Pow256(8)
    case Blob(b) => |b| <= U32_MAX
  }

  /** Compact integers: the two low bits of the first byte select the width. */
  function Compact(n: nat): Bytes {
    if n < 0x40 then LE(4 * n, 1)
    else if n < 0x4000 then LE(4 * n + 1, 2)
    else if n < 0x4000_0000 then LE(4 * n + 2, 4)
    else [3] + LE(n, 4)
  }

  function EncodeField(f: Field): Bytes {
    match f
    case U16(n) => LE(n, 2)
    case U32(n) => LE(n, 4)
    case U64(n) => LE(n, 8)
    case Blob(b) => Compact(|b|) + b
  }

  function EncodeFields(fs: seq<Field>): Bytes {
    if fs == [] then [] else EncodeField(fs[0]) + EncodeFields(fs[1..])
  }

  datatype Parsed<T> = Bad | Good(value: T, rest: Bytes)

  function TakeLE(wire: Bytes, k: nat): Parsed<nat> {
    if |wire| < k then Bad else Good(FromLE(wire[..k]), wire[k..])
  }

  /** Only the shortest form of a length is accepted. */
  function TakeCompact(wire: Bytes): Parsed<nat> {
    if wire == [] then Bad
    else match wire[0] % 4
      case 0 => Good(wire[0] / 4, wire[1..])
      case 1 => Shortest(TakeLE(wire, 2), 4, 0x40)
      case 2 => Shortest(TakeLE(wire, 4), 4, 0x4000)
      case _ => if wire[0] == 3 then Shortest(TakeLE(wire[1..], 4), 1, 0x4000_0000) else Bad
  }

  function Shortest(p: Parsed<nat>, scale: nat, least: nat): Parsed<nat>
    requires scale > 0
  {
    if p.Bad? || p.value / scale < least then Bad else Good(p.value / scale, p.rest)
  }

  function TakeField(k: Kind, wire: Bytes): Parsed<Field> {
    match k
    case KU16 => var p := TakeLE(wire, 2); if p.Bad? then Bad else Good(U16(p.value), p.rest)
    case KU32 => var p := TakeLE(wire, 4); if p.Bad? then Bad else Good(U32(p.value), p.rest)
    case KU64 => var p := TakeLE(wire, 8); if p.Bad? then Bad else Good(U64(p.value), p.rest)
    case KBytes =>
      var p := TakeCompact(wire);
      if p.Bad? || |p.rest| < p.value then Bad else Good(Blob(p.rest[..p.value]), p.rest[p.value..])
  }

  function TakeFields(ks: seq<Kind>, wire: Bytes): Parsed<seq<Field>>
    decreases |ks|
  {
    if ks == [] then Good([], wire) else
      var p := TakeField(ks[0], wire);
      if p.Bad? then Bad else
        var r := TakeFields(ks[1..], p.rest);
        if r.Bad? then Bad else Good([p.value] + r.value, r.rest)
  }

  lemma TakesBack(n: nat, k: nat, rest: Bytes)
    requires n < Pow256(k)
    ensures TakeLE(LE(n, k) + rest, k) == Good(n, rest)
  {
    LERoundTrip(n, k);
    assert (LE(n, k) + rest)[..k] == LE(n, k) && (LE(n, k) + rest)[k..] == rest;
  }

  lemma FirstByte(n: nat, k: nat, rest: Bytes)
    requires k > 0
    ensures (LE(n, k) + rest)[0] == n % 256
  {}

  lemma ModeBits(n: nat, mode: nat)
    requires mode < 4
    ensures (4 * n + mode) % 256 % 4 == mode && (4 * n + mode) / 4 == n
  {}

  lemma TwoOrFourBytes(n: nat, mode: nat, width: nat, rest: Bytes)
    requires (mode == 1 && width == 2 && 0x40 <= n < 0x4000) || (mode == 2 && width == 4 && 0x4000 <= n < 0x4000_0000)
    ensures TakeCompact(LE(4 * n + mode, width) + rest) == Good(n, rest)
  {
    Widths();
    hide LE, TakeLE, Pow256;
    ModeBits(n, mode);
    TakesBack(4 * n + mode, width, rest);
    FirstByte(4 * n + mode, width, rest);
  }

  lemma OneByte(n: nat, rest: Bytes)
    requires n < 0x40
    ensures TakeCompact(LE(4 * n, 1) + rest) == Good(n, rest)
  {
    hide LE, TakeLE;
    ModeBits(n, 0);
    FirstByte(4 * n, 1, rest);
    assert (LE(4 * n, 1) + rest)[1..] == rest;
  }

  lemma FiveBytes(n: nat, rest: Bytes)
    requires 0x4000_0000 <= n <= U32_MAX
    ensures TakeCompact([3] + LE(n, 4) + rest) == Good(n, rest)
  {
    Widths();
    hide LE, TakeLE, Pow256;
    TakesBack(n, 4, rest);
    var wire := [3] + LE(n, 4) + rest;
    assert wire[1..] == LE(n, 4) + rest && wire[0] == 3;
  }

  /** Every length below 2^32 survives its compact form. */
  lemma CompactRoundTrip(n: nat, rest: Bytes)
    requires n <= U32_MAX
    ensures TakeCompact(Compact(n) + rest) == Good(n, rest)
  {
    hide LE, TakeCompact;
    if n < 0x40 { OneByte(n, rest); }
    else if n < 0x4000 { TwoOrFourBytes(n, 1, 2, rest); }
    else if n < 0x4000_0000 { TwoOrFourBytes(n, 2, 4, rest); }
    else { FiveBytes(n, rest); }
  }

  lemma FieldRoundTrip(f: Field, rest: Bytes)
    requires Fits(f)
    ensures TakeField(KindOf(f), EncodeField(f) + rest) == Good(f, rest)
  {
    hide LE, Compact, TakeCompact, TakeLE;
    match f
    case U16(n) => TakesBack(n, 2, rest);
    case U32(n) => TakesBack(n, 4, rest);
    case U64(n) => TakesBack(n, 8, rest);
    case Blob(b) =>
      CompactRoundTrip(|b|, b + rest);
      assert Compact(|b|) + b + rest == Compact(|b|) + (b + rest);
  }

  function Kinds(fs: seq<Field>): seq<Kind> { seq(|fs|, i requires 0 <= i < |fs| => KindOf(fs[i])) }

  lemma {:induction false} FieldsRoundTrip(fs: seq<Field>, rest: Bytes)
    requires forall f :: f in fs ==> Fits(f)
    ensures TakeFields(Kinds(fs), EncodeFields(fs) + rest) == Good(fs, rest)
    decreases |fs|
  {
    hide EncodeField, TakeField, Fits;
    if fs == [] {
      assert EncodeFields(fs) + rest == rest;
    } else {
      var tail := EncodeFields(fs[1..]) + rest;
      FieldsRoundTrip(fs[1..], rest);
      FieldRoundTrip(fs[0], tail);
      assert EncodeFields(fs) + rest == EncodeField(fs[0]) + tail;
      assert Kinds(fs)[1..] == Kinds(fs[1..]) && Kinds(fs)[0] == KindOf(fs[0]);
      assert [fs[0]] + fs[1..] == fs;
    }
  }

  // ---- SegmentData ----

  /** `MeshMsg::SegmentData`, variant 4. */
  datatype Chunk = Chunk(q: Seq, track: nat, total: nat, offset: nat, bytes: Bytes)

  const SEGMENT_DATA_TAG: byte := 4

  function FieldsOf(c: Chunk): seq<Field> { [U64(c.q), U16(c.track), U32(c.total), U32(c.offset), Blob(c.bytes)] }

  predicate ChunkFits(c: Chunk) {
    c.q <= U64_MAX && c.track <= 0xFFFF && c.total <= U32_MAX && c.offset <= U32_MAX && |c.bytes| <= U32_MAX
  }

  function Derived(c: Chunk): Bytes { [SEGMENT_DATA_TAG] + EncodeFields(FieldsOf(c)) }

  function Decode(wire: Bytes): Option<Chunk> {
    if wire == [] || wire[0] != SEGMENT_DATA_TAG then None else
      var p := TakeFields([KU64, KU16, KU32, KU32, KBytes], wire[1..]);
      if p.Bad? || !Shaped(p.value) then None
      else Some(Chunk(p.value[0].n, p.value[1].n, p.value[2].n, p.value[3].n, p.value[4].b))
  }

  predicate Shaped(fs: seq<Field>) { |fs| == 5 && fs[0].U64? && fs[1].U16? && fs[2].U32? && fs[3].U32? && fs[4].Blob? }

  /** Little-endian: a byte and then the rest. */
  lemma LENext(n: nat, k: nat)
    requires k > 0
    ensures LE(n, k) == [n % 256] + LE(n / 256, k - 1)
  {}

  lemma {:induction false} LEZeros(k: nat)
    ensures LE(0, k) == seq(k, _ => 0)
  {
    if k > 0 {
      LEZeros(k - 1);
      LENext(0, k);
    }
  }

  /** A frame byte by byte: the variant, then each number least byte first, then the chunk after its compact
      length. */
  lemma FrameBytes()
    ensures Derived(Chunk(0x0102, 0, 0x0205, 3, [9, 8]))
            == [4] + ([2, 1, 0, 0, 0, 0, 0, 0] + [0, 0] + [5, 2, 0, 0] + [3, 0, 0, 0] + [8, 9, 8])
  {
    EightBytes();
    FourBytes();
    CompactTwo();
    hide EncodeField, EncodeFields;
    FiveFields(U64(0x0102), U16(0), U32(0x0205), U32(3), Blob([9, 8]));
  }

  lemma EightBytes()
    ensures EncodeField(U64(0x0102)) == [2, 1, 0, 0, 0, 0, 0, 0]
  {
    hide LE;
    LENext(0x0102, 8);
    LENext(0x01, 7);
    LEZeros(6);
  }

  lemma FourBytes()
    ensures EncodeField(U16(0)) == [0, 0] && EncodeField(U32(0x0205)) == [5, 2, 0, 0]
    ensures EncodeField(U32(3)) == [3, 0, 0, 0]
  {
    hide LE;
    LEZeros(2);
    LENext(0x0205, 4);
    LENext(0x02, 3);
    LENext(3, 4);
    LEZeros(3);
  }

  lemma CompactTwo()
    ensures EncodeField(Blob([9, 8])) == [8, 9, 8]
  {}

  lemma FiveFields(a: Field, b: Field, c: Field, d: Field, e: Field)
    ensures EncodeFields([a, b, c, d, e])
            == EncodeField(a) + EncodeField(b) + EncodeField(c) + EncodeField(d) + EncodeField(e)
  {
    EncodeNext(a, [b, c, d, e]);
    EncodeNext(b, [c, d, e]);
    EncodeNext(c, [d, e]);
    EncodeNext(d, [e]);
    EncodeNext(e, []);
    hide EncodeFields, EncodeField;
    assert [a] + [b, c, d, e] == [a, b, c, d, e] && [b] + [c, d, e] == [b, c, d, e] && [c] + [d, e] == [c, d, e];
    assert [d] + [e] == [d, e] && [e] + [] == [e] && EncodeField(e) + [] == EncodeField(e);
  }

  lemma EncodeNext(f: Field, rest: seq<Field>)
    ensures EncodeFields([f] + rest) == EncodeField(f) + EncodeFields(rest)
    ensures EncodeFields([]) == []
  {
    assert ([f] + rest)[1..] == rest;
  }

  /** Encoding then decoding a chunk message gives it back. */
  lemma ChunkRoundTrip(c: Chunk)
    requires ChunkFits(c)
    ensures Decode(Derived(c)) == Some(c)
  {
    Widths();
    var fs := FieldsOf(c);
    hide TakeFields, EncodeFields, Pow256;
    FieldsRoundTrip(fs, []);
    assert EncodeFields(fs) + [] == EncodeFields(fs) == Derived(c)[1..];
    assert Kinds(fs) == [KU64, KU16, KU32, KU32, KBytes];
  }

  /** The frame built by hand, appending straight into the output, is the derived encoding byte for byte. */
  method FrameSegmentData(q: Seq, total: nat, offset: nat, chunk: Bytes) returns (out: Bytes)
    ensures out == Derived(Chunk(q, 0, total, offset, chunk))
  {
    hide LE, Compact;
    out := [SEGMENT_DATA_TAG];
    out := out + LE(q, 8);
    out := out + LE(0, 2);
    out := out + LE(total, 4);
    out := out + LE(offset, 4);
    out := out + Compact(|chunk|);
    out := out + chunk;
    DerivedFlat(q, total, offset, chunk);
    assert out == [SEGMENT_DATA_TAG] + LE(q, 8) + LE(0, 2) + LE(total, 4) + LE(offset, 4) + Compact(|chunk|) + chunk;
  }

  lemma Prepend(f: Field, fs: seq<Field>)
    ensures EncodeFields([f] + fs) == EncodeField(f) + EncodeFields(fs)
  {
    assert ([f] + fs)[1..] == fs;
  }

  lemma Single(f: Field)
    ensures EncodeFields([f]) == EncodeField(f)
  {
    assert EncodeFields([f][1..]) == [];
  }

  lemma DerivedFlat(q: Seq, total: nat, offset: nat, chunk: Bytes)
    ensures Derived(Chunk(q, 0, total, offset, chunk))
            == [SEGMENT_DATA_TAG] + LE(q, 8) + LE(0, 2) + LE(total, 4) + LE(offset, 4) + Compact(|chunk|) + chunk
  {
    hide LE, Compact, EncodeFields;
    var f4 := [Blob(chunk)];
    var f3 := [U32(offset)] + f4;
    var f2 := [U32(total)] + f3;
    var f1 := [U16(0)] + f2;
    assert FieldsOf(Chunk(q, 0, total, offset, chunk)) == [U64(q)] + f1;
    Single(Blob(chunk));
    Prepend(U32(offset), f4);
    Prepend(U32(total), f3);
    Prepend(U16(0), f2);
    Prepend(U64(q), f1);
  }

  // ---- a segment as chunks ----

  /** Chunks are 16 KiB: where chunk `k` starts. */
  function At(k: nat): nat { 0x4000 * k }

  function ChunkCount(data: Bytes): nat { (|data| + 0x3FFF) / 0x4000 }

  function ChunkAt(data: Bytes, k: nat): Bytes
    requires k < ChunkCount(data)
  {
    data[At(k)..Min(At(k + 1), |data|)]
  }

  function Message(q: Seq, data: Bytes, k: nat): Chunk
    requires k < ChunkCount(data)
  {
    Chunk(q, 0, |data|, At(k), ChunkAt(data, k))
  }

  /** Serving a segment sends one frame per 16 KiB, in order, and each decodes to its chunk. */
  method SendSegment(q: Seq, data: Bytes) returns (sent: seq<Bytes>)
    requires q <= U64_MAX && |data| <= MAX_SEGMENT_BYTES
    ensures |sent| == ChunkCount(data)
    ensures forall k :: 0 <= k < |sent| ==>
              sent[k] == Derived(Message(q, data, k)) && Decode(sent[k]) == Some(Message(q, data, k))
  {
    hide Derived, Decode;
    sent := [];
    var offset := 0;
    while offset < |data|
      invariant offset == Min(At(|sent|), |data|) && |sent| <= ChunkCount(data)
      invariant forall k :: 0 <= k < |sent| ==>
                  sent[k] == Derived(Message(q, data, k)) && Decode(sent[k]) == Some(Message(q, data, k))
      decreases |data| - offset
    {
      var chunk := data[offset..Min(offset + 0x4000, |data|)];
      assert offset == At(|sent|) && |sent| < ChunkCount(data);
      assert chunk == ChunkAt(data, |sent|);
      var frame := FrameSegmentData(q, |data|, offset, chunk);
      ChunkRoundTrip(Message(q, data, |sent|));
      sent := sent + [frame];
      offset := offset + |chunk|;
    }
  }

  // ---- receiving them in any order ----

  predicate Numbers(data: Bytes, ks: seq<nat>) { forall i :: 0 <= i < |ks| ==> ks[i] < ChunkCount(data) }

  /** Feed the chunks numbered `ks`, in that order, to a fresh reassembler. */
  function Feed(data: Bytes, ks: seq<nat>): Reasm
    requires Numbers(data, ks)
    decreases |ks|
  {
    if ks == [] then Fresh(|data|) else
      var k := ks[|ks| - 1];
      Feed(data, ks[..|ks| - 1]).Add(At(k), ChunkAt(data, k))
  }

  /** Chunk `k` sits between its own start and the next one, and holds that slice of the segment. */
  lemma ChunkSpan(data: Bytes, k: nat)
    requires k < ChunkCount(data)
    ensures At(k) < |data| && 0 < |ChunkAt(data, k)| <= 0x4000
    ensures At(k) + |ChunkAt(data, k)| == Min(At(k + 1), |data|)
    ensures ChunkAt(data, k) == data[At(k)..At(k) + |ChunkAt(data, k)|]
  {}

  lemma Spacing(j: nat, k: nat)
    ensures (j <= k <==> At(j) <= At(k)) && (j < k ==> At(j) + 0x4000 <= At(k))
  {}

  lemma LastEnds(data: Bytes)
    ensures Min(At(ChunkCount(data)), |data|) == |data|
  {}

  /** `o` is where some chunk numbered in `[lo, hi)` starts. */
  ghost predicate Starts(o: nat, lo: nat, hi: nat) { exists k :: lo <= k < hi && o == At(k) }

  /** The true chunks, by offset, below chunk `n`. */
  ghost function Below(data: Bytes, n: nat): map<nat, Bytes>
    requires n <= ChunkCount(data)
    decreases n
  {
    if n == 0 then map[] else Below(data, n - 1)[At(n - 1) := ChunkAt(data, n - 1)]
  }

  lemma {:induction false} BelowHas(data: Bytes, n: nat)
    requires n <= ChunkCount(data)
    ensures forall o :: o in Below(data, n) ==> Starts(o, 0, n)
    ensures forall k :: 0 <= k < n ==> At(k) in Below(data, n) && Below(data, n)[At(k)] == ChunkAt(data, k)
    decreases n
  {
    hide At, ChunkAt, ChunkCount;
    if n > 0 {
      BelowHas(data, n - 1);
      var m, now := Below(data, n - 1), Below(data, n);
      forall o | o in now ensures Starts(o, 0, n) {
        if o in m { var k :| 0 <= k < n - 1 && o == At(k); }
      }
      forall k | 0 <= k < n ensures At(k) in now && now[At(k)] == ChunkAt(data, k) {
        if k < n - 1 { Apart(k, n - 1); }
      }
    }
  }

  lemma Apart(j: nat, k: nat)
    ensures At(j) == At(k) <==> j == k
  {}

  /** The chunks' lengths add up to the segment. */
  lemma {:induction false} BelowTotal(data: Bytes, n: nat)
    requires n <= ChunkCount(data)
    ensures Total(Lengths(Below(data, n))) == Min(At(n), |data|)
    decreases n
  {
    hide Total, ChunkAt, ChunkCount, Lengths;
    if n == 0 {
      NoLengths();
    } else {
      BelowTotal(data, n - 1);
      ChunkSpan(data, n - 1);
      var m, o := Below(data, n - 1), At(n - 1);
      BelowHas(data, n - 1);
      PutLength(m, o, ChunkAt(data, n - 1));
    }
  }

  lemma NoLengths()
    ensures Total(Lengths(map[])) == 0
  {
    assert Lengths(map[]) == map[];
  }

  lemma PutLength(m: map<nat, Bytes>, o: nat, c: Bytes)
    requires o !in m
    ensures Total(Lengths(m[o := c])) == Total(Lengths(m)) + |c|
  {
    hide Total;
    TotalPut(Lengths(m), o, |c|);
    assert Lengths(m[o := c]) == Lengths(m)[o := |c|];
  }

  /** Any collection of true chunks, each once. */
  ghost predicate TrueChunks(data: Bytes, chunks: map<nat, Bytes>) {
    forall o :: o in chunks ==> exists k :: 0 <= k < ChunkCount(data) && o == At(k) && chunks[o] == ChunkAt(data, k)
  }

  /** Distinct true chunks never overfill the segment. */
  lemma TrueChunksFit(data: Bytes, chunks: map<nat, Bytes>)
    requires TrueChunks(data, chunks)
    ensures Total(Lengths(chunks)) <= |data|
  {
    hide Total, Below, At, ChunkAt, ChunkCount;
    var n := ChunkCount(data);
    var whole := Below(data, n);
    BelowHas(data, n);
    var all := Lengths(whole);
    TotalSplit(all, chunks.Keys);
    assert Restrict(all, chunks.Keys) == Lengths(chunks);
    BelowTotal(data, n);
    LastEnds(data);
  }

  /** What a reassembler fed any chunks in any order holds: exactly those chunks, once each. */
  ghost predicate Holds(data: Bytes, ks: seq<nat>, r: Reasm) {
    && r.total == |data| && r.Ok() && TrueChunks(data, r.chunks)
    && (forall k :: At(k) in r.chunks <==> k in ks)
  }

  lemma {:induction false} FeedHolds(data: Bytes, ks: seq<nat>)
    requires 0 < |data| <= MAX_SEGMENT_BYTES && Numbers(data, ks)
    ensures Holds(data, ks, Feed(data, ks))
    decreases |ks|
  {
    hide At, ChunkAt, ChunkCount, Reasm.Ok, Reasm.Add;
    if ks == [] {
      FreshOk(|data|);
    } else {
      var init, k := ks[..|ks| - 1], ks[|ks| - 1];
      assert ks == init + [k];
      FeedHolds(data, init);
      AddOneMore(data, init, k, Feed(data, init));
    }
  }

  lemma AddOneMore(data: Bytes, init: seq<nat>, k: nat, r: Reasm)
    requires 0 < |data| <= MAX_SEGMENT_BYTES && k < ChunkCount(data) && Holds(data, init, r)
    ensures Holds(data, init + [k], r.Add(At(k), ChunkAt(data, k)))
  {
    hide At, ChunkAt, ChunkCount, Reasm.Ok, Total, Lengths;
    var o, c := At(k), ChunkAt(data, k);
    var s := r.Add(o, c);
    AddKeepsOk(r, o, c);
    ChunkSpan(data, k);
    Accepted(data, init, k, r);
    forall j ensures At(j) in s.chunks <==> j in init + [k] { Apart(j, k); }
    forall x | x in s.chunks
      ensures exists j :: 0 <= j < ChunkCount(data) && x == At(j) && s.chunks[x] == ChunkAt(data, j)
    {
      if x in r.chunks { assert s.chunks[x] == r.chunks[x]; }
    }
  }

  lemma Accepted(data: Bytes, init: seq<nat>, k: nat, r: Reasm)
    requires 0 < |data| <= MAX_SEGMENT_BYTES && k < ChunkCount(data) && Holds(data, init, r)
    ensures At(k) !in r.chunks ==> r.Add(At(k), ChunkAt(data, k)).chunks == r.chunks[At(k) := ChunkAt(data, k)]
    ensures At(k) in r.chunks ==> r.Add(At(k), ChunkAt(data, k)) == r
  {
    hide At, ChunkAt, ChunkCount, Total, Lengths;
    var o, c := At(k), ChunkAt(data, k);
    ChunkSpan(data, k);
    if o !in r.chunks {
      PutLength(r.chunks, o, c);
      TrueChunksFit(data, r.chunks[o := c]);
    }
  }

  /** With every chunk present the offsets line up end to end. */
  lemma {:induction false} CoversAll(data: Bytes, chunks: map<nat, Bytes>, rest: set<nat>, i: nat)
    requires i <= ChunkCount(data) && rest <= chunks.Keys
    requires forall o :: o in rest ==> Starts(o, i, ChunkCount(data))
    requires forall k :: i <= k < ChunkCount(data) ==> At(k) in rest && chunks[At(k)] == ChunkAt(data, k)
    ensures Cover(chunks, rest, Min(At(i), |data|)) == Some(|data|)
    decreases ChunkCount(data) - i
  {
    hide At, ChunkAt, ChunkCount;
    var n := ChunkCount(data);
    if i == n {
      assert rest == {} by { forall o | o in rest ensures false { } }
      LastEnds(data);
    } else {
      var o := At(i);
      ChunkSpan(data, i);
      LeastStart(rest, i, n);
      forall x | x in rest - {o} ensures Starts(x, i + 1, n) {
        var k :| i <= k < n && x == At(k);
      }
      forall k | i + 1 <= k < n ensures At(k) in rest - {o} { Apart(i, k); }
      CoversAll(data, chunks, rest - {o}, i + 1);
    }
  }

  lemma LeastStart(rest: set<nat>, i: nat, n: nat)
    requires At(i) in rest && forall o :: o in rest ==> Starts(o, i, n)
    ensures Least(rest) == At(i)
  {
    hide At;
    var m: nat := Least(rest);
    var k :| i <= k < n && m == At(k);
    Spacing(i, k);
  }

  lemma AllPresentCompletes(data: Bytes, ks: seq<nat>, r: Reasm)
    requires Holds(data, ks, r) && forall k :: 0 <= k < ChunkCount(data) ==> k in ks
    ensures r.Complete()
  {
    hide At, ChunkAt, ChunkCount, Reasm.Ok, Cover;
    var n := ChunkCount(data);
    forall o | o in r.chunks ensures Starts(o, 0, n) {}
    forall k | 0 <= k < n ensures At(k) in r.chunks && r.chunks[At(k)] == ChunkAt(data, k) {
      var o := At(k);
      assert k in ks && o in r.chunks;
      var j :| 0 <= j < n && o == At(j) && r.chunks[o] == ChunkAt(data, j);
      Apart(j, k);
    }
    CoversAll(data, r.chunks, r.chunks.Keys, 0);
    assert Min(At(0), |data|) == 0 by { Zero(data); }
  }

  lemma Zero(data: Bytes)
    ensures Min(At(0), |data|) == 0
  {}

  lemma CompleteHasAll(data: Bytes, ks: seq<nat>, r: Reasm, k: nat)
    requires Holds(data, ks, r) && r.Complete() && k < ChunkCount(data)
    ensures k in ks
  {
    hide At, ChunkAt, ChunkCount, Reasm.Ok, Cover;
    ChunkSpan(data, k);
    CoverReaches(r.chunks, r.chunks.Keys, 0, At(k));
    var o: nat :| o in r.chunks.Keys && o <= At(k) < o + |r.chunks[o]|;
    var j :| 0 <= j < ChunkCount(data) && o == At(j) && r.chunks[o] == ChunkAt(data, j);
    ChunkSpan(data, j);
    Spacing(j, k);
  }

  lemma TrueChunksAreSlices(data: Bytes, chunks: map<nat, Bytes>)
    requires TrueChunks(data, chunks)
    ensures SlicesOf(chunks, data)
  {
    hide At, ChunkAt, ChunkCount;
    forall o | o in chunks ensures o + |chunks[o]| <= |data| && chunks[o] == data[o..o + |chunks[o]|] {
      var k :| 0 <= k < ChunkCount(data) && o == At(k) && chunks[o] == ChunkAt(data, k);
      ChunkSpan(data, k);
    }
  }

  /** In any order, with any duplicates, a segment completes exactly once its last distinct chunk is in,
      and what comes out is the segment. */
  lemma AnyOrderReassembles(data: Bytes, ks: seq<nat>)
    requires 0 < |data| <= MAX_SEGMENT_BYTES && Numbers(data, ks)
    ensures Feed(data, ks).Complete() <==> forall k :: 0 <= k < ChunkCount(data) ==> k in ks
    ensures Feed(data, ks).Complete() ==> Feed(data, ks).Assemble() == Some(data)
  {
    hide At, ChunkAt, ChunkCount, Reasm.Ok, Reasm.Complete, Reasm.Assemble, Cover, Feed;
    FeedHolds(data, ks);
    var r := Feed(data, ks);
    if r.Complete() {
      forall k | 0 <= k < ChunkCount(data) ensures k in ks { CompleteHasAll(data, ks, r, k); }
      TrueChunksAreSlices(data, r.chunks);
      CompleteSlicesAssemble(r, data);
    }
    if forall k :: 0 <= k < ChunkCount(data) ==> k in ks { AllPresentCompletes(data, ks, r); }
  }

  // ---- from wire to segment ----

  /** What a receiver holds after the frames: each is decoded and handed to the reassembler. */
  function Receive(frames: seq<Bytes>, total: nat): Reasm
    decreases |frames|
  {
    if frames == [] then Fresh(total) else
      var before := Receive(frames[..|frames| - 1], total);
      match Decode(frames[|frames| - 1])
      case Some(c) => before.Add(c.offset, c.bytes)
      case None => before
  }

  ghost predicate Frames(q: Seq, data: Bytes, ks: seq<nat>, frames: seq<Bytes>)
    requires Numbers(data, ks)
  {
    |frames| == |ks| && forall i :: 0 <= i < |ks| ==> frames[i] == Derived(Message(q, data, ks[i]))
  }

  lemma {:induction false} ReceiveIsFeed(q: Seq, data: Bytes, ks: seq<nat>, frames: seq<Bytes>)
    requires q <= U64_MAX && |data| <= MAX_SEGMENT_BYTES && Numbers(data, ks) && Frames(q, data, ks, frames)
    ensures Receive(frames, |data|) == Feed(data, ks)
    decreases |ks|
  {
    hide Derived, Decode, ChunkAt, Reasm.Add;
    if ks != [] {
      var n := |ks| - 1;
      ReceiveIsFeed(q, data, ks[..n], frames[..n]);
      assert ks[n] < ChunkCount(data);
      MessageFits(q, data, ks[n]);
      ChunkRoundTrip(Message(q, data, ks[n]));
    }
  }

  lemma MessageFits(q: Seq, data: Bytes, k: nat)
    requires q <= U64_MAX && |data| <= MAX_SEGMENT_BYTES && k < ChunkCount(data)
    ensures ChunkFits(Message(q, data, k))
  {
    hide ChunkAt, At, ChunkCount;
    ChunkSpan(data, k);
  }

  /** The frames of a segment, arriving in any order and any number of times, rebuild it exactly when each
      chunk has arrived at least once. */
  lemma SentSegmentArrives(q: Seq, data: Bytes, ks: seq<nat>, frames: seq<Bytes>)
    requires q <= U64_MAX && 0 < |data| <= MAX_SEGMENT_BYTES && Numbers(data, ks) && Frames(q, data, ks, frames)
    ensures Receive(frames, |data|).Assemble() == Some(data) <==> forall k :: 0 <= k < ChunkCount(data) ==> k in ks
  {
    hide Receive, Feed, ChunkCount, Frames, Numbers;
    ReceiveIsFeed(q, data, ks, frames);
    AnyOrderReassembles(data, ks);
  }
}
