/** The buffer map: a bitfield of held segments above a rising base
    (crates/unstation-core/src/buffermap.rs), as a value, as the set it stands for,
    on the wire, and as the object the source mutates. */
module BufferMaps {
  import opened Common

  datatype BufMap = BufMap(base: Seq, bits: seq<bool>) {
    predicate Has(q: Seq) { base <= q && q - base < |bits| && bits[q - base] }

    function Set(q: Seq): BufMap {
      if q < base then this else
        var idx := q - base;
        var grown := if idx < |bits| then bits else bits + seq(idx + 1 - |bits|, _ => false);
        BufMap(base, grown[idx := true])
    }

    function PruneBelow(floor: Seq): BufMap {
      if floor <= base then this
      else if floor - base >= |bits| then BufMap(floor, [])
      else BufMap(floor, bits[floor - base..])
    }

    /** `checked_add`: a hostile base near `u64::MAX` reports no highest. */
    function Highest(): Option<Seq> {
      var i := LastOne(bits);
      if i < 0 || base + i > U64_MAX then None else Some(base + i)
    }

    function Count(): nat { Ones(bits) }

    function ToBytes(): Bytes { Pack(bits) }

    /** The set of sequence numbers this map stands for. */
    ghost function Members(): set<Seq> {
      set i: nat | i < |bits| && bits[i] :: base + i
    }
  }

  function FromBytes(base: Seq, wire: Bytes): BufMap { BufMap(base, Unpack(wire)) }

  /** Index of the last set bit, or -1. */
  function LastOne(bits: seq<bool>): (i: int)
    ensures -1 <= i < |bits|
    ensures i >= 0 ==> bits[i]
    ensures forall j :: i < j < |bits| ==> !bits[j]
  {
    if |bits| == 0 then -1
    else if bits[|bits| - 1] then |bits| - 1
    else LastOne(bits[..|bits| - 1])
  }

  function Ones(bits: seq<bool>): nat {
    if |bits| == 0 then 0 else (if bits[0] then 1 else 0) + Ones(bits[1..])
  }

  // ---- the wire form: least significant bit first, last byte zero padded ----

  function BitAt(bits: seq<bool>, i: nat): int { if i < |bits| && bits[i] then 1 else 0 }

  /** The byte holding the `n` bits from `at` on. */
  function PackFrom(bits: seq<bool>, at: nat, n: nat): (v: nat)
    ensures v < Pow2(n)
    decreases n
  {
    if n == 0 then 0 else BitAt(bits, at) + 2 * PackFrom(bits, at + 1, n - 1)
  }

  function Pow2(n: nat): nat { if n == 0 then 1 else 2 * Pow2(n - 1) }

  function PackByte(bits: seq<bool>, at: nat): byte {
    assert Pow2(8) == 256;
    PackFrom(bits, at, 8)
  }

  function Pack(bits: seq<bool>): Bytes { seq((|bits| + 7) / 8, j requires j >= 0 => PackByte(bits, 8 * j)) }

  predicate BitOf(v: nat, k: nat) { if k == 0 then v % 2 == 1 else BitOf(v / 2, k - 1) }

  function Unpack(wire: Bytes): (bits: seq<bool>)
    ensures |bits| == 8 * |wire|
  {
    seq(8 * |wire|, i requires 0 <= i < 8 * |wire| => BitOf(wire[i / 8], i % 8))
  }

  lemma {:induction false} PackedBitReads(bits: seq<bool>, at: nat, n: nat, k: nat)
    requires k < n
    ensures BitOf(PackFrom(bits, at, n), k) == (at + k < |bits| && bits[at + k])
    decreases n
  {
    var rest := PackFrom(bits, at + 1, n - 1);
    assert PackFrom(bits, at, n) / 2 == rest;
    if k > 0 { PackedBitReads(bits, at + 1, n - 1, k - 1); }
  }

  // ---- the map is the set ----

  lemma HasIsMembership(m: BufMap, q: Seq)
    ensures m.Has(q) <==> q in m.Members()
  {
    if m.Has(q) { var i := q - m.base; assert i < |m.bits| && m.bits[i] && q == m.base + i; }
  }

  /** `set` adds exactly the one number, and nothing below the base. */
  lemma SetIsInsertion(m: BufMap, q: Seq)
    ensures m.Set(q).base == m.base
    ensures m.Set(q).Members() == m.Members() + (if q < m.base then {} else {q})
  {
    forall x: Seq ensures x in m.Set(q).Members() <==> x in m.Members() + (if q < m.base then {} else {q}) {
      HasIsMembership(m, x);
      HasIsMembership(m.Set(q), x);
    }
  }

  /** `prune_below` drops exactly the numbers under the floor; the base never moves back. */
  lemma PruneIsFilter(m: BufMap, floor: Seq)
    ensures m.PruneBelow(floor).base == Max(m.base, floor)
    ensures m.PruneBelow(floor).Members() == set q | q in m.Members() && q >= floor
  {
    forall x: Seq ensures x in m.PruneBelow(floor).Members() <==> x in m.Members() && x >= floor {
      HasIsMembership(m, x);
      HasIsMembership(m.PruneBelow(floor), x);
    }
  }

  /** `highest` is the greatest member when base + length fits the wire type. */
  lemma HighestIsGreatest(m: BufMap)
    requires m.base + |m.bits| <= U64_MAX + 1
    ensures m.Highest().None? <==> m.Members() == {}
    ensures m.Highest().Some? ==> m.Has(m.Highest().value)
    ensures m.Highest().Some? ==> forall q: Seq :: m.Has(q) ==> q <= m.Highest().value
  {
    var i := LastOne(m.bits);
    if i >= 0 { assert m.base + i in m.Members(); }
  }

  lemma {:induction false} OnesIsCardinality(base: Seq, bits: seq<bool>)
    ensures Ones(bits) == |BufMap(base, bits).Members()|
    decreases |bits|
  {
    var m := BufMap(base, bits).Members();
    if |bits| > 0 {
      OnesIsCardinality(base + 1, bits[1..]);
      var tail := BufMap(base + 1, bits[1..]).Members();
      forall x: Seq ensures x in m <==> x in tail || (bits[0] && x == base) {
        HasIsMembership(BufMap(base, bits), x);
        HasIsMembership(BufMap(base + 1, bits[1..]), x);
      }
      assert base !in tail;
      assert m == if bits[0] then tail + {base} else tail;
    }
  }

  /** `count` is the number of segments held. */
  lemma CountIsCardinality(m: BufMap)
    ensures m.Count() == |m.Members()|
  {
    OnesIsCardinality(m.base, m.bits);
    assert BufMap(m.base, m.bits) == m;
  }

  /** Encoding then decoding a map changes no answer. */
  lemma WireRoundTrip(m: BufMap)
    ensures forall q: Seq :: FromBytes(m.base, m.ToBytes()).Has(q) == m.Has(q)
    ensures FromBytes(m.base, m.ToBytes()).Members() == m.Members()
  {
    var back := FromBytes(m.base, m.ToBytes());
    forall q: Seq ensures back.Has(q) == m.Has(q) {
      if m.base <= q {
        var i := q - m.base;
        if i < |back.bits| {
          PackedBitReads(m.bits, 8 * (i / 8), 8, i % 8);
        }
      }
    }
    forall x: Seq ensures x in back.Members() <==> x in m.Members() {
      HasIsMembership(m, x);
      HasIsMembership(back, x);
    }
  }

  /** The object of the source: both updates happen in place. */
  class BufferMap {
    var base: Seq
    var bits: seq<bool>

    ghost function View(): BufMap reads this { BufMap(base, bits) }

    constructor (base: Seq)
      ensures View() == BufMap(base, []) && View().Members() == {}
    {
      this.base, bits := base, [];
    }

    method Has(q: Seq) returns (held: bool)
      ensures held <==> q in View().Members()
    {
      HasIsMembership(View(), q);
      held := q >= base && q - base < |bits| && bits[q - base];
    }

    method Set(q: Seq)
      modifies this
      ensures base == old(base)
      ensures View() == old(View()).Set(q)
      ensures View().Members() == old(View().Members()) + (if q < base then {} else {q})
    {
      SetIsInsertion(View(), q);
      if q < base { return; }
      var idx := q - base;
      if idx >= |bits| {
        bits := bits + seq(idx + 1 - |bits|, _ => false);
      }
      bits := bits[idx := true];
    }

    method PruneBelow(floor: Seq)
      modifies this
      ensures View() == old(View()).PruneBelow(floor)
      ensures base == Max(old(base), floor)
      ensures View().Members() == set q | q in old(View().Members()) && q >= floor
    {
      PruneIsFilter(View(), floor);
      if floor <= base { return; }
      var drop := floor - base;
      bits := if drop >= |bits| then [] else bits[drop..];
      base := floor;
    }

    method Highest() returns (h: Option<Seq>)
      ensures h == View().Highest()
    {
      var i := |bits|;
      while i > 0 && !bits[i - 1]
        invariant 0 <= i <= |bits|
        invariant forall j :: i <= j < |bits| ==> !bits[j]
      {
        i := i - 1;
      }
      h := if i == 0 || base + (i - 1) > U64_MAX then None else Some(base + (i - 1));
    }
  }
}
