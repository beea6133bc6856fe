/** Shared vocabulary: bytes, identifiers, saturating arithmetic, and the small
    theory of sums and counts over finite maps that the accounting proofs use. */
module Common {

  datatype Option<+T> = None | Some(value: T)

  type byte = x: int | 0 <= x < 256
  type Bytes = seq<byte>

  /** A peer's 32-byte session key, used only for identity. */
  type Peer = nat
  /** Segment sequence number (`u64` on the wire; see `U64_MAX`). */
  type Seq = nat
  /** 32-byte values: content ids, stream ids, public keys. */
  type Digest = b: seq<byte> | |b| == 32 witness seq(32, _ => 0)

  const U32_MAX: nat := 0xFFFF_FFFF
  const U64_MAX: nat := 0xFFFF_FFFF_FFFF_FFFF

  function SatSub(a: nat, b: nat): nat { if b <= a then a - b else 0 }
  function Max(a: nat, b: nat): nat { if a < b then b else a }
  function Min(a: nat, b: nat): nat { if a < b then a else b }
  function MaxReal(a: real, b: real): real { if a < b then b else a }
  function MinReal(a: real, b: real): real { if a < b then a else b }

  ghost predicate NoDup<T>(s: seq<T>) {
    forall i, j :: 0 <= i < j < |s| ==> s[i] != s[j]
  }

  /** `order` lists every member of `xs` exactly once: one possible hash-table iteration order. */
  ghost predicate Enumerates<T(!new)>(order: seq<T>, xs: set<T>) {
    NoDup(order) && (forall x :: x in order <==> x in xs)
  }

  // ---- least element of a set of sequence numbers (ordered-map iteration) ----

  ghost predicate IsLeast(s: set<nat>, m: nat) { m in s && forall k :: k in s ==> m <= k }

  lemma LeastExists(s: set<nat>) returns (m: nat)
    requires s != {}
    ensures IsLeast(s, m)
  {
    var x :| x in s;
    m := x;
    var rest := s - {x};
    if rest != {} {
      assert |rest| < |s|;
      var n := LeastExists(rest);
      m := if n < x then n else x;
    }
    assert forall k :: k in s ==> k == x || k in rest;
  }

  ghost function Least(s: set<nat>): (m: nat)
    requires s != {}
    ensures IsLeast(s, m)
  {
    assert exists m :: IsLeast(s, m) by { var m := LeastExists(s); }
    var m :| IsLeast(s, m);
    m
  }

  /** The first key an ordered map would yield. */
  method FirstKey(s: set<nat>) returns (m: nat)
    requires s != {}
    ensures IsLeast(s, m)
  {
    var w := LeastExists(s);
    m :| m in s && forall k :: k in s ==> m <= k;
  }

  // ---- sums over finite maps ----

  ghost function Total<K>(m: map<K, nat>): nat
    decreases |m|
  {
    if m == map[] then 0 else
      var k :| k in m;
      assert (m - {k}).Keys == m.Keys - {k};
      m[k] + Total(m - {k})
  }

  lemma {:induction false} TotalTake<K>(m: map<K, nat>, k: K)
    requires k in m
    ensures Total(m) == m[k] + Total(m - {k})
    decreases |m|
  {
    var j :| j in m && Total(m) == m[j] + Total(m - {j});
    if j != k {
      assert (m - {k}).Keys == m.Keys - {k};
      assert (m - {j}).Keys == m.Keys - {j};
      TotalTake(m - {j}, k);
      TotalTake(m - {k}, j);
      assert m - {j} - {k} == m - {k} - {j};
    }
  }

  lemma TotalPut<K>(m: map<K, nat>, k: K, v: nat)
    ensures Total(m[k := v]) == Total(m - {k}) + v
    ensures k in m ==> Total(m[k := v]) == Total(m) - m[k] + v
    ensures k !in m ==> Total(m[k := v]) == Total(m) + v
  {
    TotalTake(m[k := v], k);
    assert m[k := v] - {k} == m - {k};
    if k in m { TotalTake(m, k); } else { assert m - {k} == m; }
  }

  /** The part of `m` whose keys lie in `ks`. */
  ghost function Restrict<K, V>(m: map<K, V>, ks: set<K>): map<K, V> { m - (m.Keys - ks) }

  /** Removing a set of keys lowers the sum by exactly their share. */
  lemma {:induction false} TotalSplit<K>(m: map<K, nat>, ks: set<K>)
    ensures Total(m) == Total(Restrict(m, ks)) + Total(m - ks)
    decreases ks
  {
    if ks == {} {
      assert m - ks == m && Restrict(m, ks) == map[];
    } else {
      var k :| k in ks;
      TotalSplit(m, ks - {k});
      if k in m {
        TotalMove(m, ks, k);
      } else {
        assert m - ks == m - (ks - {k}) && Restrict(m, ks) == Restrict(m, ks - {k});
      }
    }
  }

  lemma TotalMove<K>(m: map<K, nat>, ks: set<K>, k: K)
    requires k in m && k in ks
    ensures Total(Restrict(m, ks)) == m[k] + Total(Restrict(m, ks - {k}))
    ensures Total(m - (ks - {k})) == m[k] + Total(m - ks)
  {
    var hit, rest := Restrict(m, ks), m - (ks - {k});
    TotalTake(hit, k);
    TotalTake(rest, k);
    assert hit - {k} == Restrict(m, ks - {k});
    assert rest - {k} == m - ks;
  }

  lemma {:induction false} TotalBound<K>(m: map<K, nat>, cap: nat)
    requires forall k :: k in m ==> m[k] <= cap
    ensures Total(m) <= |m| * cap
    decreases |m|
  {
    if m != map[] {
      var k :| k in m;
      var rest := m - {k};
      assert rest.Keys == m.Keys - {k} && |rest| == |m| - 1;
      TotalTake(m, k);
      TotalBound(rest, cap);
      ScaleStep(|rest|, cap);
    }
  }

  lemma ScaleStep(n: nat, cap: nat)
    ensures (n + 1) * cap == n * cap + cap
  {}

  /** One more key adds its share. */
  lemma TotalRestrictMore<K>(m: map<K, nat>, ks: set<K>, k: K)
    requires k !in ks
    ensures Total(Restrict(m, ks + {k})) == Total(Restrict(m, ks)) + (if k in m then m[k] else 0)
  {
    hide Total;
    if k in m {
      TotalMove(m, ks + {k}, k);
      assert (ks + {k}) - {k} == ks;
    } else {
      assert Restrict(m, ks + {k}) == Restrict(m, ks);
    }
  }

  lemma {:induction false} TotalMonotone<K>(a: map<K, nat>, b: map<K, nat>)
    requires a.Keys == b.Keys && forall k :: k in a ==> a[k] <= b[k]
    ensures Total(a) <= Total(b)
    decreases |a|
  {
    if a != map[] {
      var k :| k in a;
      TotalTake(a, k);
      TotalTake(b, k);
      assert (a - {k}).Keys == a.Keys - {k} == (b - {k}).Keys;
      TotalMonotone(a - {k}, b - {k});
    } else {
      assert b == map[];
    }
  }
}
