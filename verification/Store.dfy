/** The two-tier segment store (crates/unstation-core/src/store.rs): a bounded memory
    map in front of content-addressed files. Disk writes are taken to succeed. */
module SegmentStores {
  import opened Common

  datatype Location = Memory | Disk(id: Digest) | Absent

  datatype Store = Store(mem: map<Seq, Bytes>, index: map<Seq, Digest>, files: map<Digest, Bytes>,
                         capacity: nat, disk: bool)
  {
    function Get(q: Seq): Option<Bytes> {
      if q in mem then Some(mem[q])
      else if disk && q in index && index[q] in files then Some(files[index[q]])
      else None
    }

    function Locate(q: Seq): Location {
      if q in mem then Memory
      else if disk && q in index then Disk(index[q])
      else Absent
    }

    /** Move one segment out of memory, writing its file when there is a disk tier. */
    function Spill(q: Seq): Store
      requires q in mem
    {
      this.(mem := mem - {q},
            files := if disk && q in index then files[index[q] := mem[q]] else files)
    }

    /** Spill the oldest segments until memory fits. */
    ghost function Evict(): Store
      decreases |mem|
    {
      if |mem| <= capacity then this else
        assert mem.Keys != {};
        var q := Least(mem.Keys);
        assert (mem - {q}).Keys == mem.Keys - {q};
        Spill(q).Evict()
    }

    ghost function Insert(q: Seq, id: Digest, b: Bytes): Store {
      this.(index := index[q := id], mem := mem[q := b]).Evict()
    }

    ghost function PruneBelow(floor: Seq): Store {
      var kept := map q | q in index && q >= floor :: index[q];
      this.(mem := map q | q in mem && q >= floor :: mem[q],
            index := kept,
            files := if disk then files - (Dropped(floor) - kept.Values) else files)
    }

    ghost function Dropped(floor: Seq): set<Digest> {
      set q | q in index && q < floor :: index[q]
    }
  }

  function Empty(capacity: nat, disk: bool): Store { Store(map[], map[], map[], capacity, disk) }

  // ---- refinement of a plain map ----

  /** With a disk tier, the store stands for the map `m`; an id determines its content. */
  ghost predicate Stands(s: Store, m: map<Seq, Bytes>, content: Digest -> Bytes) {
    && s.disk
    && s.index.Keys == m.Keys
    && (forall q :: q in s.mem ==> q in m && s.mem[q] == m[q])
    && (forall q :: q in m ==> content(s.index[q]) == m[q])
    && (forall id :: id in s.files ==> s.files[id] == content(id))
    && (forall q :: q in m && q !in s.mem ==> s.index[q] in s.files)
  }

  lemma GetIsLookup(s: Store, m: map<Seq, Bytes>, content: Digest -> Bytes, q: Seq)
    requires Stands(s, m, content)
    ensures s.Get(q) == if q in m then Some(m[q]) else None
  {}

  /** The tier reported without reading is the tier a read would find: absent exactly for segments the map
      lacks, and a named file holds the segment. */
  lemma LocateIsLookup(s: Store, m: map<Seq, Bytes>, content: Digest -> Bytes, q: Seq)
    requires Stands(s, m, content)
    ensures s.Locate(q).Absent? <==> q !in m
    ensures s.Locate(q).Memory? ==> s.mem[q] == m[q]
    ensures s.Locate(q).Disk? ==> s.Locate(q).id in s.files && s.files[s.Locate(q).id] == m[q]
  {}

  lemma {:induction false} EvictStands(s: Store, m: map<Seq, Bytes>, content: Digest -> Bytes)
    requires Stands(s, m, content)
    ensures Stands(s.Evict(), m, content)
    ensures s.Evict().index == s.index && s.Evict().files.Keys <= s.files.Keys + s.index.Values
    ensures s.files.Keys <= s.Evict().files.Keys
    ensures |s.Evict().mem| <= s.capacity
    decreases |s.mem|
  {
    if |s.mem| > s.capacity {
      var q := Least(s.mem.Keys);
      assert (s.mem - {q}).Keys == s.mem.Keys - {q};
      EvictStands(s.Spill(q), m, content);
    }
  }

  lemma InsertStands(s: Store, m: map<Seq, Bytes>, content: Digest -> Bytes, q: Seq, id: Digest, b: Bytes)
    requires Stands(s, m, content) && content(id) == b
    ensures Stands(s.Insert(q, id, b), m[q := b], content)
  {
    EvictStands(s.(index := s.index[q := id], mem := s.mem[q := b]), m[q := b], content);
  }

  /** Pruning forgets exactly what lies below the floor and never unlinks a file a kept segment needs. */
  lemma PruneStands(s: Store, m: map<Seq, Bytes>, content: Digest -> Bytes, floor: Seq)
    requires Stands(s, m, content)
    ensures Stands(s.PruneBelow(floor), map q | q in m && q >= floor :: m[q], content)
    ensures forall q :: q in s.index && q >= floor && s.index[q] in s.files ==>
              s.index[q] in s.PruneBelow(floor).files
  {
    var t := s.PruneBelow(floor);
    forall q | q in t.index ensures t.index[q] in t.index.Values {}
    assert forall q :: q in s.index && q >= floor ==> q in t.index && t.index[q] == s.index[q];
    assert forall id :: id in t.files <==> id in s.files && !(id in s.Dropped(floor) && id !in t.index.Values);
  }

  // ---- runs of operations ----

  datatype Op = Insert(q: Seq, id: Digest, b: Bytes) | Prune(floor: Seq)

  ghost function Apply(s: Store, ops: seq<Op>): Store
    decreases |ops|
  {
    if ops == [] then s else
      var before := Apply(s, ops[..|ops| - 1]);
      match ops[|ops| - 1]
      case Insert(q, id, b) => before.Insert(q, id, b)
      case Prune(floor) => before.PruneBelow(floor)
  }

  ghost function ApplyMap(m: map<Seq, Bytes>, ops: seq<Op>): map<Seq, Bytes>
    decreases |ops|
  {
    if ops == [] then m else
      var before := ApplyMap(m, ops[..|ops| - 1]);
      match ops[|ops| - 1]
      case Insert(q, id, b) => before[q := b]
      case Prune(floor) => map q | q in before && q >= floor :: before[q]
  }

  ghost predicate Consistent(ops: seq<Op>, content: Digest -> Bytes) {
    forall i :: 0 <= i < |ops| && ops[i].Insert? ==> content(ops[i].id) == ops[i].b
  }

  /** After any inserts and prunes, for any capacity, a lookup answers as a plain map would. */
  lemma {:induction false} RunsAgreeWithMap(capacity: nat, ops: seq<Op>, content: Digest -> Bytes)
    requires Consistent(ops, content)
    ensures Stands(Apply(Empty(capacity, true), ops), ApplyMap(map[], ops), content)
    ensures forall q: Seq :: Apply(Empty(capacity, true), ops).Get(q)
              == (if q in ApplyMap(map[], ops) then Some(ApplyMap(map[], ops)[q]) else None)
    decreases |ops|
  {
    if ops != [] {
      var init := ops[..|ops| - 1];
      RunsAgreeWithMap(capacity, init, content);
      var s, m := Apply(Empty(capacity, true), init), ApplyMap(map[], init);
      match ops[|ops| - 1]
      case Insert(q, id, b) => InsertStands(s, m, content, q, id, b);
      case Prune(floor) => PruneStands(s, m, content, floor);
    }
    forall q: Seq { GetIsLookup(Apply(Empty(capacity, true), ops), ApplyMap(map[], ops), content, q); }
  }

  // ---- what memory holds ----

  /** `top` is the `n` greatest of `all`, or all of them if there are no more. */
  ghost predicate GreatestOf(top: set<Seq>, all: set<Seq>, n: nat) {
    && top <= all && |top| <= n && (top == all || |top| == n)
    && forall x, y :: x in top && y in all && x < y ==> y in top
  }

  /** The memory tier holds the `capacity` newest segments of the map, and their content. */
  ghost predicate HoldsNewest(s: Store, m: map<Seq, Bytes>) {
    && GreatestOf(s.mem.Keys, m.Keys, s.capacity)
    && forall q :: q in s.mem ==> s.mem[q] == m[q]
  }

  ghost function Newer(all: set<Seq>, q: Seq): set<Seq> { set x | x in all && x > q }

  lemma GreatestMeans(top: set<Seq>, all: set<Seq>, n: nat, q: Seq)
    requires GreatestOf(top, all, n) && q in all
    ensures q in top <==> |Newer(all, q)| < n
  {
    if q in top {
      assert Newer(all, q) <= top - {q};
      Smaller(Newer(all, q), top - {q});
    } else {
      assert top <= Newer(all, q);
      Smaller(top, Newer(all, q));
    }
  }

  lemma Smaller(xs: set<Seq>, ys: set<Seq>)
    requires xs <= ys
    ensures |xs| <= |ys|
  {
    assert ys == xs + (ys - xs);
  }

  /** Spilling takes the oldest away until what is left fits. */
  lemma {:induction false} EvictKeepsNewest(s: Store)
    ensures var r := s.Evict();
            && GreatestOf(r.mem.Keys, s.mem.Keys, s.capacity) && (forall q :: q in r.mem ==> r.mem[q] == s.mem[q])
            && r.capacity == s.capacity && r.disk == s.disk && r.index == s.index
    decreases |s.mem|
  {
    if |s.mem| > s.capacity {
      var q := Least(s.mem.Keys);
      assert (s.mem - {q}).Keys == s.mem.Keys - {q};
      EvictKeepsNewest(s.Spill(q));
    }
  }

  /** Putting one more in and keeping the newest is keeping the newest of one more. */
  lemma NewestOfMore(top: set<Seq>, all: set<Seq>, n: nat, q: Seq, left: set<Seq>)
    requires GreatestOf(top, all, n) && GreatestOf(left, top + {q}, n)
    ensures GreatestOf(left, all + {q}, n)
  {
    if exists y :: y in all && y !in top && y > q {
      var y :| y in all && y !in top && y > q;
      assert q !in top && |top| == n && |top + {q}| == n + 1;
      assert forall x :: x in top ==> x > q;
      if q in left { Smaller(top + {q}, left); }
      assert left <= top;
      if left != top { StrictlySmaller(left, top); }
    } else if left != all + {q} && left == top + {q} {
      assert |top| == n && (q in top ==> left == top);
    }
  }

  lemma StrictlySmaller(xs: set<Seq>, ys: set<Seq>)
    requires xs <= ys && xs != ys
    ensures |xs| < |ys|
  {
    var y :| y in ys && y !in xs;
    Smaller(xs, ys - {y});
  }

  lemma InsertHoldsNewest(s: Store, m: map<Seq, Bytes>, q: Seq, id: Digest, b: Bytes)
    requires HoldsNewest(s, m)
    ensures HoldsNewest(s.Insert(q, id, b), m[q := b])
    ensures var r := s.Insert(q, id, b); r.capacity == s.capacity && r.disk == s.disk
  {
    var put := s.(index := s.index[q := id], mem := s.mem[q := b]);
    EvictKeepsNewest(put);
    assert put.mem.Keys == s.mem.Keys + {q} && m[q := b].Keys == m.Keys + {q};
    hide GreatestOf;
    NewestOfMore(s.mem.Keys, m.Keys, s.capacity, q, put.Evict().mem.Keys);
    GreatestWithin(put.Evict().mem.Keys, put.mem.Keys, s.capacity);
  }

  lemma GreatestWithin(top: set<Seq>, all: set<Seq>, n: nat)
    requires GreatestOf(top, all, n)
    ensures top <= all
  {}

  lemma PruneHoldsNewest(s: Store, m: map<Seq, Bytes>, floor: Seq)
    requires HoldsNewest(s, m)
    ensures HoldsNewest(s.PruneBelow(floor), map q | q in m && q >= floor :: m[q])
  {
    var top, all := s.PruneBelow(floor).mem.Keys, set q | q in m && q >= floor;
    assert (map q | q in m && q >= floor :: m[q]).Keys == all;
    Smaller(top, s.mem.Keys);
    if top != all {
      var y :| y in all && y !in top;
      assert top == s.mem.Keys;
    }
  }

  /** After any inserts and prunes memory holds the `capacity` newest segments of the plain map; a store without
      a disk tier answers for exactly those, so for the newest insert whenever it has any capacity. */
  lemma {:induction false} RunsHoldNewest(capacity: nat, disk: bool, ops: seq<Op>)
    ensures var (s, m) := (Apply(Empty(capacity, disk), ops), ApplyMap(map[], ops));
            && HoldsNewest(s, m) && s.capacity == capacity && s.disk == disk
            && (!disk ==> forall q: Seq ::
                  s.Get(q) == if q in m && |Newer(m.Keys, q)| < capacity then Some(m[q]) else None)
    decreases |ops|
  {
    hide HoldsNewest;
    if ops == [] {
      NothingHeld(capacity, disk);
    } else {
      var init := ops[..|ops| - 1];
      RunsHoldNewest(capacity, disk, init);
      var s, m := Apply(Empty(capacity, disk), init), ApplyMap(map[], init);
      match ops[|ops| - 1]
      case Insert(q, id, b) => InsertHoldsNewest(s, m, q, id, b);
      case Prune(floor) => PruneHoldsNewest(s, m, floor);
    }
    var s, m := Apply(Empty(capacity, disk), ops), ApplyMap(map[], ops);
    if !disk {
      forall q: Seq ensures s.Get(q) == if q in m && |Newer(m.Keys, q)| < capacity then Some(m[q]) else None {
        ReadsNewest(s, m, q);
      }
    }
  }

  lemma NothingHeld(capacity: nat, disk: bool)
    ensures HoldsNewest(Empty(capacity, disk), map[])
  {}

  lemma ReadsNewest(s: Store, m: map<Seq, Bytes>, q: Seq)
    requires HoldsNewest(s, m) && !s.disk
    ensures s.Get(q) == if q in m && |Newer(m.Keys, q)| < s.capacity then Some(m[q]) else None
  {
    if q in m { GreatestMeans(s.mem.Keys, m.Keys, s.capacity, q); }
  }

  // ---- orphan files ----

  ghost predicate NoOrphan(s: Store) { s.files.Keys <= s.index.Values }

  /** The insert overwrites the only reference to an id that already has a file. */
  ghost predicate AbandonsFile(s: Store, q: Seq, id: Digest) {
    && q in s.index && s.index[q] != id && s.index[q] in s.files
    && forall p :: p in s.index && p != q ==> s.index[p] != s.index[q]
  }

  lemma {:induction false} EvictOrphans(s: Store)
    ensures s.Evict().index == s.index && s.Evict().disk == s.disk && s.Evict().capacity == s.capacity
    ensures s.files.Keys <= s.Evict().files.Keys <= s.files.Keys + s.index.Values
    decreases |s.mem|
  {
    if |s.mem| > s.capacity {
      var q := Least(s.mem.Keys);
      assert (s.mem - {q}).Keys == s.mem.Keys - {q};
      EvictOrphans(s.Spill(q));
    }
  }

  /** An insert leaves an orphan file exactly when it re-points a segment away from an id nothing else uses. */
  lemma InsertOrphanExactly(s: Store, q: Seq, id: Digest, b: Bytes)
    requires NoOrphan(s)
    ensures NoOrphan(s.Insert(q, id, b)) <==> !AbandonsFile(s, q, id)
  {
    var put := s.(index := s.index[q := id], mem := s.mem[q := b]);
    EvictOrphans(put);
    var t := s.Insert(q, id, b);
    if !AbandonsFile(s, q, id) {
      forall f | f in t.files ensures f in t.index.Values {
        if f in s.files {
          var p: Seq :| p in s.index && s.index[p] == f;
          if p == q && s.index[q] != id {
            var p': Seq :| p' in s.index && p' != q && s.index[p'] == s.index[q];
            assert put.index[p'] == f;
          } else {
            assert p in put.index && put.index[p] == f;
          }
        }
      }
    } else {
      assert s.index[q] in t.files && s.index[q] !in t.index.Values;
    }
  }

  lemma PruneKeepsNoOrphan(s: Store, floor: Seq)
    requires NoOrphan(s) && s.disk
    ensures NoOrphan(s.PruneBelow(floor))
  {
    var t := s.PruneBelow(floor);
    forall f | f in t.files ensures f in t.index.Values {
      var p: Seq :| p in s.index && s.index[p] == f;
      if p >= floor { assert t.index[p] == f; } else { assert f in s.Dropped(floor); }
    }
  }

  /** No insert in the run gives an indexed segment a different id. */
  ghost predicate NeverRelabels(s: Store, ops: seq<Op>) {
    forall i :: 0 <= i < |ops| && ops[i].Insert? ==>
      var before := Apply(s, ops[..i]); ops[i].q in before.index ==> before.index[ops[i].q] == ops[i].id
  }

  /** After any run that never relabels a segment, every file on disk is some indexed segment's. */
  lemma {:induction false} RunsLeaveNoOrphan(capacity: nat, ops: seq<Op>)
    requires NeverRelabels(Empty(capacity, true), ops)
    ensures NoOrphan(Apply(Empty(capacity, true), ops)) && Apply(Empty(capacity, true), ops).disk
    decreases |ops|
  {
    if ops != [] {
      var init := ops[..|ops| - 1];
      forall i | 0 <= i < |init| ensures init[..i] == ops[..i] {}
      RunsLeaveNoOrphan(capacity, init);
      var s := Apply(Empty(capacity, true), init);
      match ops[|ops| - 1]
      case Insert(q, id, b) =>
        InsertOrphanExactly(s, q, id, b);
        EvictOrphans(s.(index := s.index[q := id], mem := s.mem[q := b]));
      case Prune(floor) => PruneKeepsNoOrphan(s, floor);
    }
  }

  // ---- content addressing ----

  /** Everything held, in memory or on disk, hashes to its id. */
  ghost predicate Addressed(s: Store, hash: Bytes -> Digest) {
    && (forall q :: q in s.mem ==> q in s.index && hash(s.mem[q]) == s.index[q])
    && (forall id :: id in s.files ==> hash(s.files[id]) == id)
  }

  lemma {:induction false} EvictAddressed(s: Store, hash: Bytes -> Digest)
    requires Addressed(s, hash)
    ensures Addressed(s.Evict(), hash) && s.Evict().index == s.index
    ensures s.Evict().mem.Keys <= s.mem.Keys
    decreases |s.mem|
  {
    if |s.mem| > s.capacity {
      var q := Least(s.mem.Keys);
      assert (s.mem - {q}).Keys == s.mem.Keys - {q};
      EvictAddressed(s.Spill(q), hash);
    }
  }

  lemma InsertAddressed(s: Store, hash: Bytes -> Digest, q: Seq, id: Digest, b: Bytes)
    requires Addressed(s, hash) && hash(b) == id
    ensures Addressed(s.Insert(q, id, b), hash)
    ensures s.Insert(q, id, b).index == s.index[q := id]
  {
    EvictAddressed(s.(index := s.index[q := id], mem := s.mem[q := b]), hash);
  }

  lemma PruneAddressed(s: Store, hash: Bytes -> Digest, floor: Seq)
    requires Addressed(s, hash)
    ensures Addressed(s.PruneBelow(floor), hash)
  {}

  lemma GetAddressed(s: Store, hash: Bytes -> Digest, q: Seq)
    requires Addressed(s, hash) && s.Get(q).Some?
    ensures q in s.index && hash(s.Get(q).value) == s.index[q]
  {}

  // ---- the object of the source ----

  class SegmentStore {
    var mem: map<Seq, Bytes>
    var index: map<Seq, Digest>
    var files: map<Digest, Bytes>
    const capacity: nat
    const disk: bool

    ghost function View(): Store reads this { Store(mem, index, files, capacity, disk) }

    constructor (capacity: nat, disk: bool)
      ensures View() == Empty(capacity, disk)
    {
      this.capacity, this.disk := capacity, disk;
      mem, index, files := map[], map[], map[];
    }

    method Insert(q: Seq, id: Digest, b: Bytes)
      modifies this
      ensures View() == old(View()).Insert(q, id, b)
      ensures |mem| <= capacity
    {
      index := index[q := id];
      mem := mem[q := b];
      while |mem| > capacity
        invariant View().Evict() == old(View()).Insert(q, id, b)
        decreases |mem|
      {
        assert mem.Keys != {};
        var oldest := FirstKey(mem.Keys);
        assert oldest == Least(mem.Keys);
        assert (mem - {oldest}).Keys == mem.Keys - {oldest};
        if disk && oldest in index {
          files := files[index[oldest] := mem[oldest]];
        }
        mem := mem - {oldest};
      }
    }

    method Get(q: Seq) returns (b: Option<Bytes>)
      ensures b == View().Get(q)
    {
      if q in mem { return Some(mem[q]); }
      if q !in index || !disk { return None; }
      if index[q] in files { return Some(files[index[q]]); }
      return None;
    }

    /** Which tier holds a segment, without reading it. */
    method Locate(q: Seq) returns (l: Location)
      ensures l == View().Locate(q)
    {
      l := if q in mem then Memory else if disk && q in index then Disk(index[q]) else Absent;
    }

    method PruneBelow(floor: Seq)
      modifies this
      ensures View() == old(View()).PruneBelow(floor)
    {
      mem := map q | q in mem && q >= floor :: mem[q];
      var all := index;
      index := map q | q in all && q >= floor :: all[q];
      if disk {
        var todo := set q | q in all && q < floor :: all[q];
        while todo != {}
          invariant mem == map q | q in old(mem) && q >= floor :: old(mem)[q]
          invariant index == map q | q in all && q >= floor :: all[q]
          invariant todo <= old(View()).Dropped(floor)
          invariant files - (todo - index.Values) == old(files) - (old(View()).Dropped(floor) - index.Values)
        {
          var id :| id in todo;
          if id !in index.Values {
            files := files - {id};
          }
          todo := todo - {id};
        }
        assert files - ({} - index.Values) == files;
      }
    }
  }
}
