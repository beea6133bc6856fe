/** Segment reassembly from chunks keyed by offset
    (crates/unstation-core/src/reassembly.rs). */
module Reassembly {
  import opened Common

  /** 4 MiB: larger announced sizes are refused before a reassembler exists. */
  const MAX_SEGMENT_BYTES: nat := 4 * 1024 * 1024

  function SatAdd32(a: nat, b: nat): nat { Min(a + b, U32_MAX) }

  datatype Reasm = Reasm(total: nat, chunks: map<nat, Bytes>, buffered: nat) {

    predicate Admits(offset: nat, chunk: Bytes) {
      && |chunk| != 0
      && SatAdd32(offset, |chunk|) <= total
      && SatAdd32(buffered, |chunk|) <= total
      && offset !in chunks
    }

    function Add(offset: nat, chunk: Bytes): Reasm {
      if Admits(offset, chunk)
      then Reasm(total, chunks[offset := chunk], buffered + |chunk|)
      else this
    }

    /** Bytes newly buffered by `Add`: what the caller adds to its global budget. */
    function Gain(offset: nat, chunk: Bytes): nat { if Admits(offset, chunk) then |chunk| else 0 }

    /** Chunks in offset order are contiguous from 0 and end at `total`. */
    ghost predicate Complete() { Cover(chunks, chunks.Keys, 0) == Some(total) }

    ghost function Assembled(): Bytes { Concat(chunks, chunks.Keys) }

    ghost function Assemble(): Option<Bytes> { if Complete() then Some(Assembled()) else None }

    /** The accounting every `Add` keeps. */
    ghost predicate Ok() {
      && buffered == Total(Lengths(chunks))
      && buffered <= total
      && (forall o :: o in chunks ==> 0 < |chunks[o]| && o + |chunks[o]| <= total)
    }
  }

  function Fresh(total: nat): Reasm { Reasm(total, map[], 0) }

  ghost function Lengths(chunks: map<nat, Bytes>): map<nat, nat> {
    map o | o in chunks :: |chunks[o]|
  }

  /** Where a gap-free walk over the offsets `rest`, in order from `expected`, ends; none on a gap. */
  ghost function Cover(chunks: map<nat, Bytes>, rest: set<nat>, expected: nat): Option<nat>
    requires rest <= chunks.Keys
    decreases |rest|
  {
    if rest == {} then Some(expected) else
      var k := Least(rest);
      if k != expected then None else Cover(chunks, rest - {k}, expected + |chunks[k]|)
  }

  /** The chunks at the offsets `rest`, concatenated in offset order. */
  ghost function Concat(chunks: map<nat, Bytes>, rest: set<nat>): Bytes
    requires rest <= chunks.Keys
    decreases |rest|
  {
    if rest == {} then [] else
      var k := Least(rest);
      chunks[k] + Concat(chunks, rest - {k})
  }

  lemma FreshOk(total: nat)
    ensures Fresh(total).Ok()
  {}

  /** Hostile chunks can neither write past the segment nor buffer more than its size. */
  lemma AddKeepsOk(r: Reasm, offset: nat, chunk: Bytes)
    requires r.Ok() && r.total < U32_MAX
    ensures r.Add(offset, chunk).Ok()
    ensures r.Add(offset, chunk).buffered == r.buffered + r.Gain(offset, chunk)
  {
    if r.Admits(offset, chunk) {
      TotalPut(Lengths(r.chunks), offset, |chunk|);
      assert Lengths(r.chunks[offset := chunk]) == Lengths(r.chunks)[offset := |chunk|];
    }
  }

  /** The saturating bound check is exact for every chunk just below `u32::MAX`, and only there. */
  lemma BoundCheckExactness(total: nat)
    requires total <= U32_MAX
    ensures total < U32_MAX <==>
            forall offset: nat, len: nat :: SatAdd32(offset, len) <= total ==> offset + len <= total
  {
    if total == U32_MAX {
      assert SatAdd32(U32_MAX, 1) <= total;
    }
  }

  // ---- completeness against a source segment ----

  /** Every buffered chunk is a true slice of `data`. */
  ghost predicate SlicesOf(chunks: map<nat, Bytes>, data: Bytes) {
    forall o :: o in chunks ==> o + |chunks[o]| <= |data| && chunks[o] == data[o..o + |chunks[o]|]
  }

  lemma {:induction false} ConcatOfSlices(chunks: map<nat, Bytes>, rest: set<nat>, expected: nat, data: Bytes)
    requires rest <= chunks.Keys && SlicesOf(chunks, data)
    requires expected <= |data| && Cover(chunks, rest, expected).Some?
    ensures expected <= Cover(chunks, rest, expected).value <= |data|
    ensures Concat(chunks, rest) == data[expected..Cover(chunks, rest, expected).value]
    decreases |rest|
  {
    if rest != {} {
      var k := Least(rest);
      var mid := expected + |chunks[k]|;
      ConcatOfSlices(chunks, rest - {k}, mid, data);
      var end := Cover(chunks, rest - {k}, mid).value;
      assert data[expected..mid] + data[mid..end] == data[expected..end];
    }
  }

  /** A complete set of true slices assembles to exactly the segment. */
  lemma CompleteSlicesAssemble(r: Reasm, data: Bytes)
    requires SlicesOf(r.chunks, data) && r.total == |data| && r.Complete()
    ensures r.Assemble() == Some(data)
  {
    ConcatOfSlices(r.chunks, r.chunks.Keys, 0, data);
    assert data[0..|data|] == data;
  }

  /** A gap-free walk leaves no byte of its range uncovered. */
  lemma {:induction false} CoverReaches(chunks: map<nat, Bytes>, rest: set<nat>, expected: nat, x: nat)
    requires rest <= chunks.Keys
    requires Cover(chunks, rest, expected).Some? && expected <= x < Cover(chunks, rest, expected).value
    ensures exists k: nat :: k in rest && k <= x < k + |chunks[k]|
    decreases |rest|
  {
    var k: nat := Least(rest);
    if x >= k + |chunks[k]| { CoverReaches(chunks, rest - {k}, expected + |chunks[k]|, x); }
  }

  // ---- the object of the source ----

  class Reassembler {
    const total: nat
    var chunks: map<nat, Bytes>
    var buffered: nat

    ghost function View(): Reasm reads this { Reasm(total, chunks, buffered) }

    constructor (total: nat)
      ensures View() == Fresh(total) && View().Ok()
    {
      this.total := total;
      chunks, buffered := map[], 0;
    }

    method Add(offset: nat, chunk: Bytes) returns (gained: nat)
      modifies this
      ensures View() == old(View()).Add(offset, chunk)
      ensures gained == old(View()).Gain(offset, chunk)
      ensures old(View()).Ok() && total < U32_MAX ==> View().Ok() && buffered == old(buffered) + gained
    {
      if View().Ok() && total < U32_MAX { AddKeepsOk(View(), offset, chunk); }
      gained := 0;
      if |chunk| == 0 || SatAdd32(offset, |chunk|) > total { return; }
      if SatAdd32(buffered, |chunk|) > total { return; }
      if offset !in chunks {
        chunks := chunks[offset := chunk];
        buffered := buffered + |chunk|;
        gained := |chunk|;
      }
    }

    method IsComplete() returns (complete: bool)
      ensures complete <==> View().Complete()
    {
      var end := Walk(chunks);
      complete := end == Some(total);
    }

    method Assemble() returns (out: Option<Bytes>)
      ensures out == View().Assemble()
    {
      var complete := IsComplete();
      if !complete { return None; }
      var all := JoinChunks(chunks);
      out := Some(all);
    }
  }

  /** Walk the chunks in offset order, stopping at the first gap. */
  method Walk(chunks: map<nat, Bytes>) returns (end: Option<nat>)
    ensures end == Cover(chunks, chunks.Keys, 0)
  {
    var expected: nat, rest := 0, chunks.Keys;
    while rest != {}
      invariant rest <= chunks.Keys
      invariant Cover(chunks, chunks.Keys, 0) == Cover(chunks, rest, expected)
    {
      var off := FirstKey(rest);
      assert off == Least(rest);
      if off != expected { return None; }
      expected := expected + |chunks[off]|;
      rest := rest - {off};
    }
    end := Some(expected);
  }

  method JoinChunks(chunks: map<nat, Bytes>) returns (out: Bytes)
    ensures out == Concat(chunks, chunks.Keys)
  {
    var rest := chunks.Keys;
    out := [];
    while rest != {}
      invariant rest <= chunks.Keys
      invariant Concat(chunks, chunks.Keys) == out + Concat(chunks, rest)
    {
      var off := FirstKey(rest);
      assert off == Least(rest);
      out := out + chunks[off];
      rest := rest - {off};
    }
    assert out + [] == out;
  }
}
