/** The low-latency HLS sliding window (crates/hls-server/src/lib.rs): parts grouped into parent
    segments, eviction of whole parents, the blocking-reload edge, and the playlist's grouping.
    Fragment parsing and wall-clock time are inputs. */
module Hls {
  import opened Common

  const MAX_LIVE_SEGMENTS: nat := 12
  const MAX_LIVE_PARTS: nat := 60

  /** What parsing a fragment yields, when it parses. */
  datatype Info = Info(independent: bool, ticks: nat)

  datatype Part = Part(bytes: Bytes, independent: bool, ticks: nat, msn: nat, wall: nat)

  /** A part under its stream sequence number. */
  datatype Entry = Entry(at: Seq, part: Part)

  type Parts = map<Seq, Part>

  datatype Shared = Shared(parts: Parts, ll: bool, partMs: nat, targetMs: nat, next: nat, cur: nat, haveAny: bool) {

    function Opens(info: Option<Info>): bool { !ll || !haveAny || Independent(info) }

    function Independent(info: Option<Info>): bool { if ll then info.Some? && info.value.independent else true }

    function Ticks(info: Option<Info>): nat { if ll && info.Some? then info.value.ticks else 0 }

    function Cap(): nat { if ll then MAX_LIVE_PARTS else MAX_LIVE_SEGMENTS }

    /** The part as it will be kept: a keyframe, or the first part, opens a new parent. */
    function Made(bytes: Bytes, info: Option<Info>, wall: nat): Part {
      Part(bytes, Independent(info), Ticks(info), if Opens(info) then next else cur, wall)
    }

    ghost function Push(at: Seq, bytes: Bytes, info: Option<Info>, wall: nat): Shared {
      var p := Made(bytes, info, wall);
      Shared(Evict(parts[at := p], Cap(), p.msn), ll, partMs, targetMs,
             if Opens(info) then next + 1 else next, p.msn, true)
    }

    function Configure(low: bool, part: nat, target: nat): Shared {
      this.(ll := low, partMs := if part > 0 then part else partMs, targetMs := if target > 0 then target else targetMs)
    }

    function Reset(): Shared { this.(parts := map[], next := 0, cur := 0, haveAny := false) }

    /** `EXT-X-MEDIA-SEQUENCE`: the parent of the oldest part. */
    ghost function MediaSequence(): nat { if parts == map[] then 0 else parts[Least(parts.Keys)].msn }

    /** Newest parent, and the index of its newest part. */
    ghost function LiveEdge(): Option<(nat, int)> {
      if parts == map[] then None else
        var m := parts[Greatest(parts.Keys)].msn;
        Some((m, |Family(parts, m)| - 1))
    }

    /** A blocking reload for `(msn, part)` may answer. */
    ghost predicate Ready(msn: nat, part: nat) {
      LiveEdge().Some? && (LiveEdge().value.0 > msn || (LiveEdge().value.0 == msn && LiveEdge().value.1 >= part))
    }
  }

  /** The fragment parsed, and starts with a keyframe. */
  ghost predicate Keyframe(info: Option<Info>) { info.Some? && info.value.independent }

  /** What a push adds to the list: the fragment as it came, under parent 0 if it is the first since the
      reset, under a new parent if the stream has no parts or the fragment is a keyframe, and under the parent
      of the push before it otherwise. */
  ghost predicate Joins(e: Entry, low: bool, log: seq<Entry>, at: Seq, bytes: Bytes, info: Option<Info>, wall: nat) {
    && e.at == at && e.part.bytes == bytes && e.part.wall == wall
    && (e.part.independent <==> !low || Keyframe(info))
    && e.part.ticks == (if low && info.Some? then info.value.ticks else 0)
    && e.part.msn == if log == [] then 0
                     else log[|log| - 1].part.msn + if !low || Keyframe(info) then 1 else 0
  }

  function Family(parts: Parts, msn: nat): set<Seq> { set s | s in parts && parts[s].msn == msn }

  /** Drop whole parents, oldest first, while over the cap; the open one stays. */
  ghost function Evict(parts: Parts, cap: nat, open: nat): Parts
    decreases |parts|
  {
    if |parts| <= cap || parts == map[] then parts else
      var oldest := parts[Least(parts.Keys)].msn;
      if oldest == open then parts else
        Dropping(parts, Least(parts.Keys));
        Evict(parts - Family(parts, oldest), cap, open)
  }

  lemma EvictSmall(parts: Parts, cap: nat, open: nat)
    ensures |parts| <= cap ==> Evict(parts, cap, open) == parts
  {}

  lemma EvictStep(parts: Parts, cap: nat, open: nat)
    requires |parts| > cap
    ensures var oldest := parts[Least(parts.Keys)].msn;
            Evict(parts, cap, open) == if oldest == open then parts else Evict(parts - Family(parts, oldest), cap, open)
  {}

  lemma Dropping(parts: Parts, s: Seq)
    requires s in parts
    ensures |parts - Family(parts, parts[s].msn)| < |parts|
  {
    var fam := Family(parts, parts[s].msn);
    assert (parts - fam).Keys == parts.Keys - fam;
    assert s in fam && fam <= parts.Keys;
  }

  ghost predicate IsGreatest(xs: set<nat>, m: nat) { m in xs && forall k :: k in xs ==> k <= m }

  lemma GreatestExists(xs: set<nat>) returns (m: nat)
    requires xs != {}
    ensures IsGreatest(xs, m)
  {
    var x :| x in xs;
    m := x;
    var rest := xs - {x};
    if rest != {} {
      var n := GreatestExists(rest);
      m := if n > x then n else x;
    }
    assert forall k :: k in xs ==> k == x || k in rest;
  }

  ghost function Greatest(xs: set<nat>): (m: nat)
    requires xs != {}
    ensures IsGreatest(xs, m)
  {
    assert exists m :: IsGreatest(xs, m) by { var m := GreatestExists(xs); }
    var m :| IsGreatest(xs, m);
    m
  }

  // ---- the window as a suffix of everything pushed ----

  ghost predicate Ascending(es: seq<Entry>) { forall i, j :: 0 <= i < j < |es| ==> es[i].at < es[j].at }

  /** Parent numbers start at zero and rise by at most one from part to part. */
  ghost predicate Stepped(es: seq<Entry>) {
    && (|es| > 0 ==> es[0].part.msn == 0)
    && (forall i :: 0 < i < |es| ==> es[i - 1].part.msn <= es[i].part.msn <= es[i - 1].part.msn + 1)
  }

  /** `parts` is exactly the entries from `cut` on. */
  ghost predicate Shows(parts: Parts, log: seq<Entry>, cut: nat) {
    && (forall i :: cut <= i < |log| ==> log[i].at in parts && parts[log[i].at] == log[i].part)
    && (forall s :: s in parts ==> exists i :: cut <= i < |log| && log[i].at == s)
  }

  /** A parent starts at index `cut`. */
  ghost predicate Boundary(es: seq<Entry>, cut: nat) {
    cut < |es| && (cut == 0 || es[cut - 1].part.msn < es[cut].part.msn)
  }

  /** Everything pushed since the last reset is `log`; what is kept is the tail from `cut`, which starts a parent. */
  ghost predicate Window(h: Shared, log: seq<Entry>, cut: nat) {
    && Ascending(log) && Stepped(log)
    && (if log == [] then cut == 0 && h.parts == map[] && h.next == 0 && !h.haveAny
        else Boundary(log, cut) && Shows(h.parts, log, cut) && h.haveAny
             && h.cur == log[|log| - 1].part.msn && h.next == h.cur + 1)
  }

  lemma {:induction false} Climbs(log: seq<Entry>, i: nat, j: nat)
    requires Stepped(log) && i <= j < |log|
    ensures log[i].part.msn <= log[j].part.msn
    decreases j
  {
    if i < j { Climbs(log, i, j - 1); }
  }

  lemma {:induction false} ShowsSize(parts: Parts, log: seq<Entry>, cut: nat)
    requires cut <= |log| && Shows(parts, log, cut) && Ascending(log)
    ensures |parts| == |log| - cut
    decreases |log| - cut
  {
    if cut == |log| {
      assert parts == map[];
    } else {
      var rest := parts - {log[cut].at};
      assert rest.Keys == parts.Keys - {log[cut].at};
      ShowsSize(rest, log, cut + 1);
    }
  }

  lemma ShowsFirst(parts: Parts, log: seq<Entry>, cut: nat)
    requires cut < |log| && Shows(parts, log, cut) && Ascending(log)
    ensures parts != map[] && Least(parts.Keys) == log[cut].at && parts[Least(parts.Keys)] == log[cut].part
  {
    assert log[cut].at in parts;
    var lo: nat := Least(parts.Keys);
    var i :| cut <= i < |log| && log[i].at == lo;
  }

  lemma ShowsLast(parts: Parts, log: seq<Entry>, cut: nat)
    requires cut < |log| && Shows(parts, log, cut) && Ascending(log)
    ensures parts != map[] && Greatest(parts.Keys) == log[|log| - 1].at
            && parts[Greatest(parts.Keys)] == log[|log| - 1].part
  {
    var last := |log| - 1;
    assert log[last].at in parts;
    var hi: nat := Greatest(parts.Keys);
    var j :| cut <= j < |log| && log[j].at == hi;
  }

  /** Index just past the parent that starts at `cut`. */
  ghost function ParentEnd(log: seq<Entry>, cut: nat): (e: nat)
    requires cut < |log|
    ensures cut < e <= |log|
    ensures forall i :: cut <= i < e ==> log[i].part.msn == log[cut].part.msn
    ensures e < |log| ==> log[e].part.msn != log[cut].part.msn
    decreases |log| - cut
  {
    if cut + 1 < |log| && log[cut + 1].part.msn == log[cut].part.msn then ParentEnd(log, cut + 1) else cut + 1
  }

  lemma NextParent(log: seq<Entry>, cut: nat)
    requires Stepped(log) && cut < |log| && log[cut].part.msn != log[|log| - 1].part.msn
    ensures ParentEnd(log, cut) < |log| && Boundary(log, ParentEnd(log, cut))
    ensures log[ParentEnd(log, cut)].part.msn == log[cut].part.msn + 1
  {
    var e := ParentEnd(log, cut);
    assert log[e - 1].part.msn == log[cut].part.msn;
  }

  /** Dropping the oldest parent moves the cut to the next parent. */
  lemma EvictOldest(parts: Parts, log: seq<Entry>, cut: nat)
    requires Stepped(log) && cut < |log| && Shows(parts, log, cut)
    requires log[cut].part.msn != log[|log| - 1].part.msn
    ensures Shows(parts - Family(parts, log[cut].part.msn), log, ParentEnd(log, cut))
  {
    NextParent(log, cut);
    var e, m := ParentEnd(log, cut), log[cut].part.msn;
    forall i | e <= i < |log| ensures log[i].part.msn > m { Climbs(log, e, i); }
  }

  /** Where eviction leaves the cut. */
  ghost function EvictCut(log: seq<Entry>, cut: nat, cap: nat): (c: nat)
    requires cut < |log|
    ensures cut <= c
    decreases |log| - cut
  {
    if |log| - cut <= cap || log[cut].part.msn == log[|log| - 1].part.msn || ParentEnd(log, cut) == |log| then cut
    else EvictCut(log, ParentEnd(log, cut), cap)
  }

  /** Eviction keeps a tail of whole parents: within the cap, or just the open one. */
  lemma {:induction false} EvictTail(parts: Parts, log: seq<Entry>, cut: nat, cap: nat)
    requires Ascending(log) && Stepped(log) && Boundary(log, cut) && Shows(parts, log, cut)
    ensures var (open, c) := (log[|log| - 1].part.msn, EvictCut(log, cut, cap));
            && Boundary(log, c) && Shows(Evict(parts, cap, open), log, c)
            && (|log| - c <= cap || log[c].part.msn == open)
    decreases |log| - cut
  {
    hide Shows, Ascending, Stepped, Family;
    var open := log[|log| - 1].part.msn;
    ShowsSize(parts, log, cut);
    ShowsFirst(parts, log, cut);
    if |log| - cut > cap && log[cut].part.msn != open {
      NextParent(log, cut);
      EvictOldest(parts, log, cut);
      Dropping(parts, Least(parts.Keys));
      EvictTail(parts - Family(parts, log[cut].part.msn), log, ParentEnd(log, cut), cap);
    }
  }

  // ---- one push in order ----

  /** Pushes arrive in increasing order of sequence number. */
  ghost predicate InOrder(log: seq<Entry>, at: Seq) { log != [] ==> at > log[|log| - 1].at }

  lemma LogGrows(h: Shared, log: seq<Entry>, cut: nat, at: Seq, p: Part)
    requires Window(h, log, cut) && InOrder(log, at)
    requires p.msn == h.next || (h.haveAny && p.msn == h.cur)
    ensures var log' := log + [Entry(at, p)]; Ascending(log') && Stepped(log') && Boundary(log', cut)
  {
    hide Shows;
  }

  lemma PartsGrow(parts: Parts, log: seq<Entry>, cut: nat, at: Seq, p: Part)
    requires Shows(parts, log, cut) && cut <= |log| && forall i :: 0 <= i < |log| ==> log[i].at < at
    ensures Shows(parts[at := p], log + [Entry(at, p)], cut)
  {
    var log' := log + [Entry(at, p)];
    assert forall i :: 0 <= i < |log| ==> log'[i] == log[i];
    assert log'[|log|].at == at;
    var more := parts[at := p];
    forall s | s in more ensures exists i :: cut <= i < |log'| && log'[i].at == s {
      if s != at { var i :| cut <= i < |log| && log[i].at == s; assert log'[i].at == s; }
    }
  }

  lemma PushGrows(h: Shared, log: seq<Entry>, cut: nat, at: Seq, p: Part)
    requires Window(h, log, cut) && InOrder(log, at)
    requires p.msn == h.next || (h.haveAny && p.msn == h.cur)
    ensures var log' := log + [Entry(at, p)];
            Ascending(log') && Stepped(log') && Boundary(log', cut) && Shows(h.parts[at := p], log', cut)
  {
    LogGrows(h, log, cut, at, p);
    hide Stepped;
    assert forall i :: 0 <= i < |log| ==> log[i].at < at;
    PartsGrow(h.parts, log, cut, at, p);
  }

  /** A push appends to the log and keeps a tail of whole parents, within the cap or just the open one. */
  lemma PushSlides(h: Shared, log: seq<Entry>, cut: nat, at: Seq, bytes: Bytes, info: Option<Info>, wall: nat)
    requires Window(h, log, cut) && InOrder(log, at)
    ensures var (h', log') := (h.Push(at, bytes, info, wall), log + [Entry(at, h.Made(bytes, info, wall))]);
            var cut' := EvictCut(log', cut, h.Cap());
            && Window(h', log', cut') && cut <= cut'
            && (|h'.parts| <= h.Cap() || log'[cut'].part.msn == h'.cur)
  {
    hide Shows, Ascending, Stepped, Evict, EvictCut;
    var p := h.Made(bytes, info, wall);
    var log' := log + [Entry(at, p)];
    PushGrows(h, log, cut, at, p);
    EvictTail(h.parts[at := p], log', cut, h.Cap());
    ShowsSize(h.Push(at, bytes, info, wall).parts, log', EvictCut(log', cut, h.Cap()));
  }

  // ---- what the window means ----

  /** All sequence numbers ever pushed under parent `m`. */
  ghost function Pushed(log: seq<Entry>, m: nat): set<Seq> {
    set i | 0 <= i < |log| && log[i].part.msn == m :: log[i].at
  }

  lemma OldestIsFirst(h: Shared, log: seq<Entry>, cut: nat)
    requires Window(h, log, cut) && log != []
    ensures h.parts != map[] && h.MediaSequence() == log[cut].part.msn <= h.cur
  {
    hide Shows, Ascending, Stepped;
    ShowsFirst(h.parts, log, cut);
    Climbs(log, cut, |log| - 1);
  }

  /** A listed parent is whole: it holds exactly what was ever pushed under it, unchanged. */
  lemma RetainedParentsAreWhole(h: Shared, log: seq<Entry>, cut: nat, m: nat)
    requires Window(h, log, cut) && log != [] && h.MediaSequence() <= m
    ensures Family(h.parts, m) == Pushed(log, m)
    ensures forall i :: 0 <= i < |log| && log[i].part.msn == m ==>
              log[i].at in h.parts && h.parts[log[i].at] == log[i].part
  {
    OldestIsFirst(h, log, cut);
    forall i | 0 <= i < |log| && log[i].part.msn == m ensures i >= cut {
      if i < cut { Climbs(log, i, cut - 1); }
    }
    hide Stepped, Ascending;
    forall s | s in Family(h.parts, m) ensures s in Pushed(log, m) {
      var i :| cut <= i < |log| && log[i].at == s;
    }
  }

  ghost function Msns(parts: Parts): set<nat> { set s | s in parts :: parts[s].msn }

  /** The numbers from `lo` up to but not including `hi`. */
  ghost function Range(lo: nat, hi: nat): (r: set<nat>)
    ensures forall m: nat :: m in r <==> lo <= m < hi
    ensures |r| == SatSub(hi, lo)
    decreases hi
  {
    if hi <= lo then {} else Range(lo, hi - 1) + {hi - 1}
  }

  lemma {:induction false} NoParentSkipped(log: seq<Entry>, cut: nat, j: nat, m: nat)
    requires Stepped(log) && cut <= j < |log| && log[cut].part.msn <= m <= log[j].part.msn
    ensures exists i :: cut <= i <= j && log[i].part.msn == m
    decreases j
  {
    if log[j].part.msn == m {
    } else if cut < j {
      NoParentSkipped(log, cut, j - 1, m);
    }
  }

  /** The listed parents are one contiguous range, from the media sequence to the open parent. */
  lemma ListedParentsAreContiguous(h: Shared, log: seq<Entry>, cut: nat)
    requires Window(h, log, cut) && log != []
    ensures Msns(h.parts) == Range(h.MediaSequence(), h.cur + 1)
  {
    OldestIsFirst(h, log, cut);
    forall m | m in Msns(h.parts) ensures h.MediaSequence() <= m <= h.cur { ListedIsInRange(h, log, cut, m); }
    forall m: nat | h.MediaSequence() <= m <= h.cur ensures m in Msns(h.parts) {
      NoParentSkipped(log, cut, |log| - 1, m);
      var i :| cut <= i <= |log| - 1 && log[i].part.msn == m;
      assert log[i].at in h.parts && h.parts[log[i].at] == log[i].part;
    }
  }

  lemma ListedIsInRange(h: Shared, log: seq<Entry>, cut: nat, m: nat)
    requires Window(h, log, cut) && log != [] && m in Msns(h.parts)
    ensures log[cut].part.msn <= m <= h.cur
  {
    var s :| s in h.parts && h.parts[s].msn == m;
    var i :| cut <= i < |log| && log[i].at == s;
    hide Ascending, Shows;
    Climbs(log, cut, i);
    Climbs(log, i, |log| - 1);
  }

  // ---- the reload edge ----

  ghost predicate LexLess(a: (nat, int), b: (nat, int)) { a.0 < b.0 || (a.0 == b.0 && a.1 < b.1) }

  lemma EdgeIs(h: Shared, log: seq<Entry>, cut: nat)
    requires Window(h, log, cut) && log != []
    ensures h.LiveEdge() == Some((h.cur, |Pushed(log, h.cur)| - 1))
  {
    hide Shows, Ascending, Stepped, Pushed, Family;
    ShowsLast(h.parts, log, cut);
    OldestIsFirst(h, log, cut);
    RetainedParentsAreWhole(h, log, cut, h.cur);
  }

  lemma PushedAppend(log: seq<Entry>, e: Entry, m: nat)
    ensures Pushed(log + [e], m) == Pushed(log, m) + if e.part.msn == m then {e.at} else {}
  {
    var log' := log + [e];
    forall s | s in Pushed(log, m) ensures s in Pushed(log', m) {
      var i :| 0 <= i < |log| && log[i].part.msn == m && log[i].at == s;
      assert log'[i] == log[i];
    }
    assert log'[|log|] == e;
  }

  /** Every push moves the edge strictly forward: a part further, or into the next parent. */
  lemma PushMovesEdge(h: Shared, log: seq<Entry>, cut: nat, at: Seq, bytes: Bytes, info: Option<Info>, wall: nat)
    requires Window(h, log, cut) && InOrder(log, at)
    ensures h.Push(at, bytes, info, wall).LiveEdge().Some?
    ensures h.LiveEdge().Some? ==> LexLess(h.LiveEdge().value, h.Push(at, bytes, info, wall).LiveEdge().value)
  {
    hide Shows, Stepped, Evict, EvictCut, Pushed, Family;
    PushSlides(h, log, cut, at, bytes, info, wall);
    var e := Entry(at, h.Made(bytes, info, wall));
    EdgeIs(h.Push(at, bytes, info, wall), log + [e], EvictCut(log + [e], cut, h.Cap()));
    if log != [] {
      EdgeIs(h, log, cut);
      PushedAppend(log, e, h.cur);
      NewAt(log, at, h.cur);
    }
  }

  lemma NewAt(log: seq<Entry>, at: Seq, m: nat)
    requires Ascending(log) && InOrder(log, at)
    ensures at !in Pushed(log, m)
  {}

  // ---- the playlist ----

  datatype Group = Group(msn: nat, list: seq<Entry>)

  /** Consecutive parts of one parent, in order. */
  function Groups(es: seq<Entry>): seq<Group> {
    if es == [] then [] else AddTo(Groups(es[..|es| - 1]), es[|es| - 1])
  }

  function AddTo(gs: seq<Group>, e: Entry): seq<Group> {
    if gs != [] && gs[|gs| - 1].msn == e.part.msn
    then gs[|gs| - 1 := Group(e.part.msn, gs[|gs| - 1].list + [e])]
    else gs + [Group(e.part.msn, [e])]
  }

  /** The entries of parent `m`, in order. */
  function Under(es: seq<Entry>, m: nat): seq<Entry> {
    if es == [] then [] else
      Under(es[..|es| - 1], m) + if es[|es| - 1].part.msn == m then [es[|es| - 1]] else []
  }

  /** `gs` lists parents numbered on from the first, each with all its entries. */
  ghost predicate Lists(gs: seq<Group>, es: seq<Entry>)
    requires es != []
  {
    && |gs| == es[|es| - 1].part.msn - es[0].part.msn + 1
    && (forall k :: 0 <= k < |gs| ==> gs[k].msn == es[0].part.msn + k && gs[k].list == Under(es, gs[k].msn))
  }

  ghost predicate Contiguous(es: seq<Entry>) {
    forall i :: 0 < i < |es| ==> es[i - 1].part.msn <= es[i].part.msn <= es[i - 1].part.msn + 1
  }

  lemma {:induction false} NothingBeyond(es: seq<Entry>, m: nat)
    requires Contiguous(es) && es != [] && es[|es| - 1].part.msn < m
    ensures Under(es, m) == []
    decreases |es|
  {
    if |es| > 1 { NothingBeyond(es[..|es| - 1], m); }
  }

  /** Grouping by run is grouping by parent, when parents are contiguous. */
  lemma {:induction false} GroupsListParents(es: seq<Entry>)
    requires Contiguous(es) && es != []
    ensures Groups(es) != [] && es[0].part.msn <= es[|es| - 1].part.msn && Lists(Groups(es), es)
    decreases |es|
  {
    var init, e := es[..|es| - 1], es[|es| - 1];
    if init == [] {
      assert Groups(init) == [] && Groups(es) == [Group(e.part.msn, [e])];
      assert Under(init, e.part.msn) == [] && Under(es, e.part.msn) == [e];
    } else {
      assert Contiguous(init);
      hide Contiguous, Under;
      GroupsListParents(init);
      assert init + [e] == es;
      AddListed(Groups(init), init, e);
    }
  }

  lemma AddListed(gs: seq<Group>, init: seq<Entry>, e: Entry)
    requires Contiguous(init + [e]) && init != [] && init[0].part.msn <= init[|init| - 1].part.msn && Lists(gs, init)
    ensures init[0].part.msn <= e.part.msn && Lists(AddTo(gs, e), init + [e])
  {
    var es := init + [e];
    assert es[..|es| - 1] == init && es[|es| - 1] == e && es[|init| - 1] == init[|init| - 1] && es[0] == init[0];
    hide Under;
    forall m: nat ensures Under(es, m) == Under(init, m) + if e.part.msn == m then [e] else [] {
      UnderSnoc(init, e, m);
    }
    if e.part.msn != init[|init| - 1].part.msn {
      assert Contiguous(init) by { assert forall i :: 0 <= i < |init| ==> init[i] == es[i]; }
      NothingBeyond(init, e.part.msn);
    }
  }

  lemma UnderSnoc(init: seq<Entry>, e: Entry, m: nat)
    ensures Under(init + [e], m) == Under(init, m) + if e.part.msn == m then [e] else []
  {
    assert (init + [e])[..|init + [e]| - 1] == init;
  }

  /** The parts in order of sequence number, as the ordered map yields them. */
  ghost function Items(parts: Parts): seq<Entry>
    decreases |parts|
  {
    if parts == map[] then [] else
      var s := Least(parts.Keys);
      assert (parts - {s}).Keys == parts.Keys - {s};
      [Entry(s, parts[s])] + Items(parts - {s})
  }

  lemma {:induction false} ItemsAreTail(parts: Parts, log: seq<Entry>, cut: nat)
    requires Ascending(log) && cut <= |log| && Shows(parts, log, cut)
    ensures Items(parts) == log[cut..]
    decreases |log| - cut
  {
    if cut == |log| {
      assert parts == map[];
    } else {
      ShowsFirst(parts, log, cut);
      DropFirst(parts, log, cut);
      hide Shows, Ascending;
      ItemsAreTail(parts - {log[cut].at}, log, cut + 1);
      assert log[cut..] == [log[cut]] + log[cut + 1..];
    }
  }

  lemma DropFirst(parts: Parts, log: seq<Entry>, cut: nat)
    requires Ascending(log) && cut < |log| && Shows(parts, log, cut)
    ensures Shows(parts - {log[cut].at}, log, cut + 1)
  {}

  /** The playlist lists the parents from the media sequence to the open one, in order, each with exactly
      the parts ever pushed under it, in order. */
  lemma PlaylistListsWholeParents(h: Shared, log: seq<Entry>, cut: nat)
    requires Window(h, log, cut) && log != []
    ensures var gs := Groups(Items(h.parts));
            && |gs| == h.cur - h.MediaSequence() + 1
            && forall k :: 0 <= k < |gs| ==> gs[k].msn == h.MediaSequence() + k && gs[k].list == Under(log, gs[k].msn)
  {
    ItemsAreTail(h.parts, log, cut);
    OldestIsFirst(h, log, cut);
    TailContiguous(log, cut);
    hide Under, Shows, Ascending, Stepped, Groups, Items, Contiguous;
    var es := log[cut..];
    GroupsListParents(es);
    assert es[0] == log[cut] && es[|es| - 1] == log[|log| - 1];
    forall k | 0 <= k < |Groups(es)| ensures Groups(es)[k].list == Under(log, Groups(es)[k].msn) {
      TailUnder(log, cut, Groups(es)[k].msn);
    }
  }

  lemma TailContiguous(log: seq<Entry>, cut: nat)
    requires Stepped(log) && cut <= |log|
    ensures Contiguous(log[cut..])
  {}

  lemma TailUnder(log: seq<Entry>, cut: nat, m: nat)
    requires Stepped(log) && Boundary(log, cut) && m >= log[cut].part.msn
    ensures Under(log[cut..], m) == Under(log, m)
  {
    hide Under, Stepped;
    TailHasAll(log, cut, |log|, m);
    assert log[..|log|] == log && log[cut..|log|] == log[cut..];
  }

  lemma {:induction false} TailHasAll(log: seq<Entry>, cut: nat, n: nat, m: nat)
    requires Stepped(log) && Boundary(log, cut) && cut <= n <= |log| && m >= log[cut].part.msn
    ensures Under(log[cut..n], m) == Under(log[..n], m)
    decreases n
  {
    if n == cut {
      if cut > 0 { HeadHasNone(log, cut, m); }
    } else {
      TailHasAll(log, cut, n - 1, m);
      assert log[cut..n][..n - cut - 1] == log[cut..n - 1] && log[..n][..n - 1] == log[..n - 1];
    }
  }

  lemma {:induction false} HeadHasNone(log: seq<Entry>, n: nat, m: nat)
    requires Stepped(log) && 0 < n <= |log| && log[n - 1].part.msn < m
    ensures Under(log[..n], m) == []
    decreases n
  {
    assert log[..n][..n - 1] == log[..n - 1];
    if n > 1 { HeadHasNone(log, n - 1, m); }
  }

  // ---- durations ----

  const TIMESCALE: nat := 90_000

  function Seconds(ticks: nat): real { ticks as real / TIMESCALE as real }

  function Nominal(partMs: nat): real { Seconds(partMs * TIMESCALE / 1000) }

  function Duration(p: Part, partMs: nat): real { if p.ticks > 0 then Seconds(p.ticks) else Nominal(partMs) }

  function ListDuration(list: seq<Entry>, partMs: nat): real {
    if list == [] then 0.0 else ListDuration(list[..|list| - 1], partMs) + Duration(list[|list| - 1].part, partMs)
  }

  function Ceil(x: real): int { -((-x).Floor) }

  datatype Playlist = Playlist(mediaSeq: nat, groups: seq<Group>, nextSeq: Seq, partTarget: real, targetDuration: int)

  // ---- the object of the source ----

  class HlsSink {
    var init: Option<Bytes>
    var parts: map<Seq, Part>
    var targetMs: nat
    var ll: bool
    var partMs: nat
    var nextParentMsn: nat
    var curParentMsn: nat
    var haveAny: bool
    /** What was pushed since the last reset, and where the window starts in it. */
    ghost var log: seq<Entry>
    ghost var cut: nat

    /** Fed in order since the last reset, the sink shows a tail of whole parents. */
    ghost predicate Valid() reads this { Window(View(), log, cut) }

    ghost function View(): Shared reads this {
      Shared(parts, ll, partMs, targetMs, nextParentMsn, curParentMsn, haveAny)
    }

    constructor (target: nat, low: bool, part: nat)
      ensures View() == Shared(map[], low, part, target, 0, 0, false) && Valid() && log == [] && init == None
    {
      log, cut := [], 0;
      init, parts, targetMs, ll, partMs := None, map[], target, low, part;
      nextParentMsn, curParentMsn, haveAny := 0, 0, false;
    }

    method Configure(low: bool, part: nat, target: nat)
      modifies this
      ensures View() == old(View()).Configure(low, part, target) && init == old(init)
      ensures log == old(log) && cut == old(cut) && (old(Valid()) ==> Valid())
    {
      ll := low;
      if part > 0 { partMs := part; }
      if target > 0 { targetMs := target; }
    }

    method Reset()
      modifies this
      ensures View() == old(View()).Reset() && init == None && Valid() && log == []
    {
      log, cut := [], 0;
      init, parts := None, map[];
      nextParentMsn, curParentMsn, haveAny := 0, 0, false;
    }

    /** A push; in order, the window slides by whole parents, stays within its cap or down to the open
        parent, and the reload edge moves forward. */
    method PushSegment(at: Seq, bytes: Bytes, info: Option<Info>, wall: nat)
      modifies this
      ensures View() == old(View()).Push(at, bytes, info, wall) && init == old(init)
      ensures old(Valid()) && InOrder(old(log), at) ==>
                && Valid() && old(cut) <= cut
                && |log| == |old(log)| + 1 && log[..|old(log)|] == old(log)
                && Joins(log[|old(log)|], old(ll), old(log), at, bytes, info, wall)
                && at in parts && parts[at] == log[|old(log)|].part
                && (|parts| <= View().Cap() || Msns(parts) == {curParentMsn})
                && View().LiveEdge().Some?
                && (old(View()).LiveEdge().Some? ==> LexLess(old(View()).LiveEdge().value, View().LiveEdge().value))
    {
      hide Window, Shared.Push, Shared.LiveEdge, Msns, EvictCut, InOrder;
      ghost var h, was, from := View(), log, cut;
      ghost var next := was + [Entry(at, h.Made(bytes, info, wall))];
      Insert(at, bytes, info, wall);
      log, cut := was, from;
      if Window(h, was, from) && InOrder(was, at) {
        CutWithin(h, was, from);
        PushSlides(h, was, from, at, bytes, info, wall);
        PushMovesEdge(h, was, from, at, bytes, info, wall);
        log, cut := next, EvictCut(next, from, h.Cap());
        OnlyOpen(View(), log, cut);
        PushKeepsMode(h, at, bytes, info, wall);
        WindowIsOpened(h, was, from);
        PushJoins(h, was, at, bytes, info, wall);
      }
    }

    method Insert(at: Seq, bytes: Bytes, info: Option<Info>, wall: nat)
      modifies this
      ensures View() == old(View()).Push(at, bytes, info, wall) && init == old(init)
    {
      var independent, ticks := true, 0;
      if ll {
        match info
        case Some(i) => independent, ticks := i.independent, i.ticks;
        case None => independent, ticks := false, 0;
      }
      if !ll || !haveAny || independent {
        curParentMsn := nextParentMsn;
        nextParentMsn := nextParentMsn + 1;
      }
      haveAny := true;
      parts := parts[at := Part(bytes, independent, ticks, curParentMsn, wall)];
      hide Evict;
      DropOldParents(if ll then MAX_LIVE_PARTS else MAX_LIVE_SEGMENTS);
    }

    /** Whole parents leave, oldest first, while the window is over its cap; the open one stays. */
    method DropOldParents(cap: nat)
      modifies this`parts
      ensures parts == Evict(old(parts), cap, curParentMsn)
    {
      hide Evict;
      EvictSmall(parts, cap, curParentMsn);
      while |parts| > cap
        invariant Evict(old(parts), cap, curParentMsn) == Evict(parts, cap, curParentMsn)
        decreases |parts|
      {
        var first := FirstKey(parts.Keys);
        assert first == Least(parts.Keys);
        var oldest := parts[first].msn;
        EvictStep(parts, cap, curParentMsn);
        if oldest == curParentMsn { return; }
        Dropping(parts, first);
        parts := parts - Family(parts, oldest);
      }
      EvictSmall(parts, cap, curParentMsn);
    }

    method Edge() returns (edge: Option<(nat, int)>)
      ensures edge == View().LiveEdge()
    {
      if parts == map[] { return None; }
      var last := LastKey(parts.Keys);
      assert last == Greatest(parts.Keys);
      edge := Some((parts[last].msn, |Family(parts, parts[last].msn)| - 1));
    }

    /** The announced part and segment targets are the least that bound every listed part and parent. */
    method LlPlaylist() returns (pl: Playlist)
      ensures pl.groups == Groups(Items(parts)) && pl.mediaSeq == View().MediaSequence()
      ensures pl.nextSeq == if parts == map[] then 0 else Greatest(parts.Keys) + 1
      ensures forall s :: s in parts ==> Duration(parts[s], partMs) <= pl.partTarget
      ensures forall g :: g in pl.groups ==> ListDuration(g.list, partMs) <= pl.targetDuration as real
      ensures pl.targetDuration as real >= targetMs as real / 1000.0 && pl.targetDuration >= 1
      ensures pl.partTarget >= Nominal(partMs)
      ensures pl.partTarget == Nominal(partMs) || exists s :: s in parts && Duration(parts[s], partMs) == pl.partTarget
      ensures pl.targetDuration > 1 ==>
                || (pl.targetDuration - 1) as real < targetMs as real / 1000.0
                || exists g :: g in pl.groups && (pl.targetDuration - 1) as real < ListDuration(g.list, partMs)
    {
      hide Duration, ListDuration, Groups, Items;
      var groups, maxPart := GroupParts(parts, partMs);
      var maxParent := MaxGroup(groups, partMs);
      var mediaSeq, nextSeq := 0, 0;
      if parts != map[] {
        var first := FirstKey(parts.Keys);
        assert first == Least(parts.Keys);
        mediaSeq := parts[first].msn;
        var last := LastKey(parts.Keys);
        nextSeq := last + 1;
        assert last == Greatest(parts.Keys);
      }
      var want := Ceil(MaxReal(maxParent, targetMs as real / 1000.0));
      pl := Playlist(mediaSeq, groups, nextSeq, maxPart, if want < 1 then 1 else want);
    }
  }

  /** One walk over the parts: group them by parent, and find the longest. */
  method GroupParts(parts: Parts, partMs: nat) returns (groups: seq<Group>, maxPart: real)
    ensures groups == Groups(Items(parts))
    ensures forall s :: s in parts ==> Duration(parts[s], partMs) <= maxPart
    ensures maxPart >= Nominal(partMs)
    ensures maxPart == Nominal(partMs) || exists s :: s in parts && Duration(parts[s], partMs) == maxPart
  {
    hide Duration, AddTo, Nominal, Items, Groups;
    ItemsStart();
    groups, maxPart := [], Nominal(partMs);
    var rest := parts;
    ghost var done: seq<Entry> := [];
    while rest != map[]
      invariant rest.Keys <= parts.Keys && forall s :: s in rest ==> rest[s] == parts[s]
      invariant Items(parts) == done + Items(rest) && groups == Groups(done)
      invariant forall s :: s in parts && s !in rest ==> Duration(parts[s], partMs) <= maxPart
      invariant maxPart >= Nominal(partMs)
      invariant maxPart == Nominal(partMs) || exists s :: s in parts && Duration(parts[s], partMs) == maxPart
      decreases |rest|
    {
      var s := FirstKey(rest.Keys);
      assert s == Least(rest.Keys);
      assert (rest - {s}).Keys == rest.Keys - {s};
      var e := Entry(s, rest[s]);
      maxPart := MaxReal(maxPart, Duration(rest[s], partMs));
      groups := AddTo(groups, e);
      GroupsSnoc(done, e);
      ItemsStep(rest);
      assert done + ([e] + Items(rest - {s})) == (done + [e]) + Items(rest - {s});
      done := done + [e];
      rest := rest - {s};
    }
    assert done + [] == done;
  }

  lemma ItemsStart()
    ensures Items(map[]) == [] && Groups([]) == []
  {}

  lemma ItemsStep(parts: Parts)
    requires parts != map[]
    ensures var s := Least(parts.Keys); Items(parts) == [Entry(s, parts[s])] + Items(parts - {s})
  {}

  lemma GroupsSnoc(es: seq<Entry>, e: Entry)
    ensures Groups(es + [e]) == AddTo(Groups(es), e)
  {
    assert (es + [e])[..|es + [e]| - 1] == es;
  }

  method LastKey(xs: set<nat>) returns (m: nat)
    requires xs != {}
    ensures IsGreatest(xs, m)
  {
    var w := GreatestExists(xs);
    m :| m in xs && forall k :: k in xs ==> k <= m;
  }

  method MaxGroup(groups: seq<Group>, partMs: nat) returns (most: real)
    ensures forall g :: g in groups ==> ListDuration(g.list, partMs) <= most
    ensures most == 0.0 || exists g :: g in groups && ListDuration(g.list, partMs) == most
  {
    most := 0.0;
    for i := 0 to |groups|
      invariant forall k :: 0 <= k < i ==> ListDuration(groups[k].list, partMs) <= most
      invariant most == 0.0 || exists g :: g in groups && ListDuration(g.list, partMs) == most
    {
      most := MaxReal(most, ListDuration(groups[i].list, partMs));
    }
  }

  lemma CutWithin(h: Shared, log: seq<Entry>, cut: nat)
    requires Window(h, log, cut)
    ensures cut <= |log|
  {
    hide Shows, Ascending, Stepped;
  }

  lemma PushKeepsMode(h: Shared, at: Seq, bytes: Bytes, info: Option<Info>, wall: nat)
    ensures h.Push(at, bytes, info, wall).ll == h.ll
  {
    hide Evict;
  }

  // ---- runs ----

  datatype Act =
    | PushSegment(at: Seq, bytes: Bytes, info: Option<Info>, wall: nat)
    | Configure(low: bool, part: nat, target: nat)
    | Reset

  /** The sink with what was pushed since the last reset. */
  datatype Track = Track(h: Shared, log: seq<Entry>, cut: nat)

  ghost predicate Orderly(k: Track, a: Act) { a.PushSegment? ==> InOrder(k.log, a.at) }

  ghost function Next(k: Track, a: Act): Track {
    match a
    case PushSegment(at, bytes, info, wall) =>
      var log := k.log + [Entry(at, k.h.Made(bytes, info, wall))];
      Track(k.h.Push(at, bytes, info, wall), log, if k.cut < |log| then EvictCut(log, k.cut, k.h.Cap()) else 0)
    case Configure(low, part, target) => k.(h := k.h.Configure(low, part, target))
    case Reset => Track(k.h.Reset(), [], 0)
  }

  /** A sink from its creation, fed in increasing sequence order between resets. */
  ghost predicate IsHlsRun(tr: seq<Track>, acts: seq<Act>) {
    && |tr| == |acts| + 1
    && tr[0] == Track(Shared(map[], tr[0].h.ll, tr[0].h.partMs, tr[0].h.targetMs, 0, 0, false), [], 0)
    && forall i :: 0 <= i < |acts| ==> Orderly(tr[i], acts[i]) && tr[i + 1] == Next(tr[i], acts[i])
  }

  lemma HlsRunStep(tr: seq<Track>, acts: seq<Act>, i: nat)
    requires IsHlsRun(tr, acts) && i < |acts|
    ensures Orderly(tr[i], acts[i]) && tr[i + 1] == Next(tr[i], acts[i])
  {
    hide Orderly, Next;
  }

  /** In every state the window is a tail of whole parents, and right after a push it is within its cap
      or holds only the open parent. */
  lemma {:induction false} EveryWindow(tr: seq<Track>, acts: seq<Act>, i: nat)
    requires IsHlsRun(tr, acts) && i <= |acts|
    ensures Window(tr[i].h, tr[i].log, tr[i].cut)
    ensures i > 0 && acts[i - 1].PushSegment? ==>
              |tr[i].h.parts| <= tr[i].h.Cap() || Msns(tr[i].h.parts) == {tr[i].h.cur}
    decreases i
  {
    hide Shows, Ascending, Stepped, Evict, EvictCut, Msns;
    if i > 0 {
      EveryWindow(tr, acts, i - 1);
      HlsRunStep(tr, acts, i - 1);
      var k, a := tr[i - 1], acts[i - 1];
      if a.PushSegment? {
        PushSlides(k.h, k.log, k.cut, a.at, a.bytes, a.info, a.wall);
        OnlyOpen(tr[i].h, tr[i].log, tr[i].cut);
      } else if a.Reset? {
        Unpushed(tr[i].h);
      }
    } else {
      Unpushed(tr[0].h);
    }
  }

  lemma Unpushed(h: Shared)
    requires h.parts == map[] && h.next == 0 && !h.haveAny
    ensures Window(h, [], 0)
  {}

  lemma OnlyOpen(h: Shared, log: seq<Entry>, cut: nat)
    requires Window(h, log, cut) && log != []
    ensures log[cut].part.msn == h.cur ==> Msns(h.parts) == {h.cur}
  {
    hide Shows, Ascending, Stepped, Msns;
    OldestIsFirst(h, log, cut);
    ListedParentsAreContiguous(h, log, cut);
  }

  ghost predicate NoReset(acts: seq<Act>, i: nat, j: nat) { forall k :: i <= k < j && k < |acts| ==> !acts[k].Reset? }

  /** Between resets the log only grows and the window only slides. */
  lemma {:induction false} LogExtends(tr: seq<Track>, acts: seq<Act>, i: nat, j: nat)
    requires IsHlsRun(tr, acts) && i <= j <= |acts| && NoReset(acts, i, j)
    ensures Later(tr[i], tr[j])
    decreases j
  {
    hide Shows, Ascending, Stepped, Evict, EvictCut, Shared.Push;
    if i < j {
      LogExtends(tr, acts, i, j - 1);
      HlsRunStep(tr, acts, j - 1);
      EveryWindow(tr, acts, j - 1);
      var n, mid := |tr[i].log|, tr[j - 1].log;
      assert tr[j].log[..|mid|] == mid;
      assert tr[j].log[..n] == mid[..n];
    }
  }

  /** A segment that is closed and still listed later has, then, exactly the parts it had when it closed. */
  lemma ClosedSegmentsNeverChange(tr: seq<Track>, acts: seq<Act>, i: nat, j: nat, m: nat)
    requires IsHlsRun(tr, acts) && i <= j <= |acts| && NoReset(acts, i, j)
    requires tr[i].log != [] && m < tr[i].h.cur && tr[j].h.MediaSequence() <= m
    ensures tr[i].h.MediaSequence() <= tr[j].h.MediaSequence()
    ensures Family(tr[j].h.parts, m) == Family(tr[i].h.parts, m) == Pushed(tr[j].log, m)
    ensures forall s :: s in Family(tr[i].h.parts, m) ==> tr[j].h.parts[s] == tr[i].h.parts[s]
  {
    hide Next, Orderly, Window, Later, Shared.MediaSequence, Family, Pushed;
    EveryWindow(tr, acts, i);
    EveryWindow(tr, acts, j);
    LogExtends(tr, acts, i, j);
    ClosedStays(tr[i], tr[j], m);
  }

  lemma ClosedStays(a: Track, b: Track, m: nat)
    requires Window(a.h, a.log, a.cut) && Window(b.h, b.log, b.cut) && Later(a, b) && a.log != []
    requires m < a.h.cur && b.h.MediaSequence() <= m
    ensures a.h.MediaSequence() <= b.h.MediaSequence()
    ensures Family(b.h.parts, m) == Family(a.h.parts, m) == Pushed(b.log, m)
    ensures forall s :: s in Family(a.h.parts, m) ==> b.h.parts[s] == a.h.parts[s]
  {
    MediaOnlyRises(a, b);
    RetainedParentsAreWhole(a.h, a.log, a.cut, m);
    RetainedParentsAreWhole(b.h, b.log, b.cut, m);
    ClosedLog(a.log, b.log, m);
    hide Shows, Ascending, Stepped, Shared.MediaSequence;
  }

  ghost predicate Later(a: Track, b: Track) {
    |a.log| <= |b.log| && b.log[..|a.log|] == a.log && a.cut <= b.cut
  }

  lemma MediaOnlyRises(a: Track, b: Track)
    requires Window(a.h, a.log, a.cut) && Window(b.h, b.log, b.cut) && Later(a, b) && a.log != []
    ensures a.h.MediaSequence() <= b.h.MediaSequence()
  {
    hide Shows, Ascending;
    OldestIsFirst(a.h, a.log, a.cut);
    OldestIsFirst(b.h, b.log, b.cut);
    assert a.log[a.cut] == b.log[a.cut];
    Climbs(b.log, a.cut, b.cut);
  }

  lemma ClosedLog(a: seq<Entry>, b: seq<Entry>, m: nat)
    requires Stepped(b) && 0 < |a| <= |b| && b[..|a|] == a && m < a[|a| - 1].part.msn
    ensures Pushed(a, m) == Pushed(b, m)
    ensures forall i :: 0 <= i < |b| && b[i].part.msn == m ==> i < |a| && b[i] == a[i]
  {
    assert forall i :: 0 <= i < |a| ==> a[i] == b[i];
    forall i | 0 <= i < |b| && b[i].part.msn == m ensures i < |a| {
      if i >= |a| { Climbs(b, |a| - 1, i); }
    }
  }

  /** The media sequence never falls, and each push raises it by exactly the number of parents it removed. */
  lemma MediaSequenceCountsRemovals(tr: seq<Track>, acts: seq<Act>, i: nat)
    requires IsHlsRun(tr, acts) && i < |acts| && !acts[i].Reset? && tr[i].log != []
    ensures tr[i].h.MediaSequence() <= tr[i + 1].h.MediaSequence()
    ensures |Msns(tr[i].h.parts) - Msns(tr[i + 1].h.parts)| == tr[i + 1].h.MediaSequence() - tr[i].h.MediaSequence()
  {
    hide Next, Orderly, Window, Later, Shared.MediaSequence, Msns;
    EveryWindow(tr, acts, i);
    EveryWindow(tr, acts, i + 1);
    LogExtends(tr, acts, i, i + 1);
    CurSteps(tr, acts, i);
    RemovalsCounted(tr[i], tr[i + 1]);
  }

  lemma RemovalsCounted(a: Track, b: Track)
    requires Window(a.h, a.log, a.cut) && Window(b.h, b.log, b.cut) && Later(a, b) && a.log != []
    requires a.h.cur <= b.h.cur <= a.h.cur + 1
    ensures a.h.MediaSequence() <= b.h.MediaSequence()
    ensures |Msns(a.h.parts) - Msns(b.h.parts)| == b.h.MediaSequence() - a.h.MediaSequence()
  {
    hide Window, Msns, Later, Shared.MediaSequence, Range;
    assert b.log != [] by { StillFed(a, b); }
    MediaOnlyRises(a, b);
    ListedRange(a);
    ListedRange(b);
    RangeMinus(a.h.MediaSequence(), a.h.cur + 1, b.h.MediaSequence(), b.h.cur + 1);
  }

  lemma ListedRange(k: Track)
    requires Window(k.h, k.log, k.cut) && k.log != []
    ensures Msns(k.h.parts) == Range(k.h.MediaSequence(), k.h.cur + 1) && k.h.MediaSequence() <= k.h.cur
  {
    hide Window, Msns, Range;
    ListedParentsAreContiguous(k.h, k.log, k.cut);
    OldestIsFirst(k.h, k.log, k.cut);
  }

  lemma StillFed(a: Track, b: Track)
    requires Later(a, b) && a.log != []
    ensures b.log != []
  {}

  lemma RangeMinus(lo: nat, hi: nat, lo': nat, hi': nat)
    requires lo <= lo' <= hi <= hi'
    ensures |Range(lo, hi) - Range(lo', hi')| == lo' - lo
  {
    assert Range(lo, hi) - Range(lo', hi') == Range(lo, lo');
  }

  lemma CurSteps(tr: seq<Track>, acts: seq<Act>, i: nat)
    requires IsHlsRun(tr, acts) && i < |acts| && !acts[i].Reset? && tr[i].log != []
    ensures tr[i].h.cur <= tr[i + 1].h.cur <= tr[i].h.cur + 1
  {
    hide Shows, Ascending, Stepped, Evict, EvictCut;
    EveryWindow(tr, acts, i);
    HlsRunStep(tr, acts, i);
  }

  /** Once a blocking reload could answer it can always answer, until a reset. */
  lemma {:induction false} ReadyStaysReady(tr: seq<Track>, acts: seq<Act>, i: nat, j: nat, msn: nat, part: nat)
    requires IsHlsRun(tr, acts) && i <= j <= |acts| && NoReset(acts, i, j) && tr[i].h.Ready(msn, part)
    ensures tr[j].h.Ready(msn, part)
    decreases j
  {
    hide Window, Shared.Push, EvictCut, Shared.LiveEdge;
    if i < j {
      ReadyStaysReady(tr, acts, i, j - 1, msn, part);
      HlsRunStep(tr, acts, j - 1);
      EveryWindow(tr, acts, j - 1);
      var k, a := tr[j - 1], acts[j - 1];
      if a.PushSegment? { PushMovesEdge(k.h, k.log, k.cut, a.at, a.bytes, a.info, a.wall); }
      else { ConfigureKeepsEdge(k.h, a.low, a.part, a.target); }
    }
  }

  lemma ConfigureKeepsEdge(h: Shared, low: bool, part: nat, target: nat)
    ensures h.Configure(low, part, target).LiveEdge() == h.LiveEdge()
  {}

  // ---- announced durations ----

  ghost function Untimed(list: seq<Entry>): nat {
    if list == [] then 0 else Untimed(list[..|list| - 1]) + if list[|list| - 1].part.ticks == 0 then 1 else 0
  }

  lemma NominalIs(partMs: nat)
    ensures Nominal(partMs) == partMs as real / 1000.0
  {
    assert partMs * TIMESCALE / 1000 == 90 * partMs;
  }

  lemma {:induction false} DurationDiffers(list: seq<Entry>, a: nat, b: nat)
    ensures ListDuration(list, a) - ListDuration(list, b) == Untimed(list) as real * (Nominal(a) - Nominal(b))
    decreases |list|
  {
    hide Nominal, Seconds;
    if list != [] {
      DurationDiffers(list[..|list| - 1], a, b);
      RealStep(Untimed(list[..|list| - 1]), Nominal(a) - Nominal(b));
    }
  }

  lemma RealStep(n: nat, x: real)
    ensures (n + 1) as real * x == n as real * x + x
  {}

  lemma {:induction false} UntimedNone(list: seq<Entry>)
    ensures Untimed(list) == 0 <==> forall e :: e in list ==> e.part.ticks > 0
    decreases |list|
  {
    if list != [] {
      UntimedNone(list[..|list| - 1]);
      assert list == list[..|list| - 1] + [list[|list| - 1]];
    }
  }

  /** A list of parts is announced the same under two part durations exactly when they are equal or every
      part carries its own duration. */
  lemma SameDurationExactly(list: seq<Entry>, a: nat, b: nat)
    ensures ListDuration(list, a) == ListDuration(list, b) <==> a == b || forall e :: e in list ==> e.part.ticks > 0
  {
    hide ListDuration, Nominal, Untimed;
    DurationDiffers(list, a, b);
    UntimedNone(list);
    NominalIs(a);
    NominalIs(b);
    var n, x := Untimed(list) as real, Nominal(a) - Nominal(b);
    if a != b && Untimed(list) > 0 {
      assert x != 0.0 && n != 0.0;
      Nonzero(n, x);
    }
  }

  lemma Nonzero(x: real, y: real)
    requires x != 0.0 && y != 0.0
    ensures x * y != 0.0
  {}

  lemma {:induction false} UnderPrefix(a: seq<Entry>, b: seq<Entry>, n: nat, m: nat)
    requires Stepped(b) && 0 < |a| <= n <= |b| && b[..|a|] == a && m < a[|a| - 1].part.msn
    ensures Under(b[..n], m) == Under(a, m)
    decreases n
  {
    if n > |a| {
      UnderPrefix(a, b, n - 1, m);
      assert b[..n][..n - 1] == b[..n - 1];
      assert b[|a| - 1] == a[|a| - 1];
      Climbs(b, |a| - 1, n - 1);
    }
  }

  /** A closed segment still listed later lists the same parts in the same order, and is announced with the
      same duration exactly when the nominal part duration is unchanged or none of its parts needs it. */
  lemma ClosedDurationExactly(tr: seq<Track>, acts: seq<Act>, i: nat, j: nat, m: nat)
    requires IsHlsRun(tr, acts) && i <= j <= |acts| && NoReset(acts, i, j)
    requires tr[i].log != [] && m < tr[i].h.cur && tr[j].h.MediaSequence() <= m
    ensures Under(tr[j].log, m) == Under(tr[i].log, m)
    ensures ListDuration(Under(tr[i].log, m), tr[i].h.partMs) == ListDuration(Under(tr[j].log, m), tr[j].h.partMs) <==>
            tr[i].h.partMs == tr[j].h.partMs || forall e :: e in Under(tr[i].log, m) ==> e.part.ticks > 0
  {
    hide Next, Orderly, Window, Later, Under, ListDuration;
    EveryWindow(tr, acts, i);
    EveryWindow(tr, acts, j);
    LogExtends(tr, acts, i, j);
    SameUnder(tr[i], tr[j], m);
    SameDurationExactly(Under(tr[i].log, m), tr[i].h.partMs, tr[j].h.partMs);
  }

  lemma SameUnder(a: Track, b: Track, m: nat)
    requires Window(a.h, a.log, a.cut) && Window(b.h, b.log, b.cut) && Later(a, b) && a.log != [] && m < a.h.cur
    ensures Under(b.log, m) == Under(a.log, m)
  {
    hide Under, Shows, Ascending;
    UnderPrefix(a.log, b.log, |b.log|, m);
    assert b.log[..|b.log|] == b.log;
  }

  /** The reconfiguration that changes an announcement: a part without a duration of its own. */
  lemma ConfigureChangesDuration()
    ensures var h := Shared(map[], true, 200, 2_000, 0, 0, false).Push(0, [1], None, 0);
            Duration(h.parts[0], h.partMs) != Duration(h.parts[0], h.Configure(true, 400, 0).partMs)
  {
    var h := Shared(map[], true, 200, 2_000, 0, 0, false).Push(0, [1], None, 0);
    assert h.parts == map[0 := Part([1], false, 0, 0, 0)];
    NominalIs(200);
    NominalIs(400);
  }

  // ---- why order matters ----

  /** The late part finds its place: walking off whole parents as eviction will, it never comes to stand
      before the oldest parent left, unless it belongs to it. */
  ghost predicate InPlace(parts: Parts, at: Seq, msn: nat, cap: nat)
    decreases |parts|
  {
    parts == map[] ||
    var oldest := parts[Least(parts.Keys)].msn;
    if at < Least(parts.Keys) then msn == oldest
    else |parts| < cap || oldest == msn
         || (Dropping(parts, Least(parts.Keys)); InPlace(parts - Family(parts, oldest), at, msn, cap))
  }

  lemma LeastIs(xs: set<nat>, m: nat)
    requires IsLeast(xs, m)
    ensures Least(xs) == m
  {
    assert Least(xs) in xs;
  }

  lemma GreatestIs(xs: set<nat>, m: nat)
    requires IsGreatest(xs, m)
    ensures Greatest(xs) == m
  {
    assert Greatest(xs) in xs;
  }

  lemma PutLeast(parts: Parts, at: Seq, p: Part)
    requires parts != map[] && at !in parts
    ensures Least(parts[at := p].Keys) == Min(at, Least(parts.Keys))
  {
    LeastIs(parts[at := p].Keys, Min(at, Least(parts.Keys)));
  }

  lemma PutCount(parts: Parts, at: Seq, p: Part)
    requires at !in parts
    ensures |parts[at := p]| == |parts| + 1
  {
    assert parts[at := p].Keys == parts.Keys + {at};
  }

  lemma {:induction false} EvictOnlyDrops(parts: Parts, cap: nat, open: nat)
    ensures forall s :: s in Evict(parts, cap, open) ==> s in parts && Evict(parts, cap, open)[s] == parts[s]
    ensures forall s :: s in parts && parts[s].msn == open ==> s in Evict(parts, cap, open)
    decreases |parts|
  {
    if |parts| > cap {
      EvictStep(parts, cap, open);
      var oldest := parts[Least(parts.Keys)].msn;
      if oldest != open {
        Dropping(parts, Least(parts.Keys));
        EvictOnlyDrops(parts - Family(parts, oldest), cap, open);
      }
    } else {
      EvictSmall(parts, cap, open);
    }
  }

  lemma EvictLone(at: Seq, p: Part, cap: nat)
    ensures Evict(map[at := p], cap, p.msn) == map[at := p]
  {
    LeastIs({at}, at);
    assert map[at := p].Keys == {at};
  }

  /** Putting a part elsewhere commutes with dropping a parent. */
  lemma DropPut(parts: Parts, at: Seq, p: Part, m: nat)
    requires at !in parts && p.msn != m
    ensures parts[at := p] - Family(parts[at := p], m) == (parts - Family(parts, m))[at := p]
  {}

  /** When the oldest parent is the newest one, nothing else is listed. */
  lemma OnlyOneParent(parts: Parts, log: seq<Entry>, cut: nat)
    requires Stepped(log) && cut < |log| && Shows(parts, log, cut) && log[cut].part.msn == log[|log| - 1].part.msn
    ensures parts - Family(parts, log[cut].part.msn) == map[] && Msns(parts) == {log[cut].part.msn}
    ensures Family(parts, log[cut].part.msn) == parts.Keys
  {
    forall i | cut <= i < |log| ensures log[i].part.msn == log[cut].part.msn {
      Climbs(log, cut, i);
      Climbs(log, i, |log| - 1);
    }
    assert log[cut].at in parts;
  }

  lemma MsnsWithout(parts: Parts, s: Seq)
    requires s in parts
    ensures Msns(parts) == Msns(parts - Family(parts, parts[s].msn)) + {parts[s].msn}
    ensures parts[s].msn !in Msns(parts - Family(parts, parts[s].msn))
  {
    var rest := parts - Family(parts, parts[s].msn);
    forall m | m in Msns(parts) && m != parts[s].msn ensures m in Msns(rest) {
      var x :| x in parts && parts[x].msn == m;
      assert x in rest;
    }
  }

  ghost function FirstMsn(parts: Parts): nat
    requires parts != map[]
  { parts[Least(parts.Keys)].msn }

  /** How many parents of `parts` are no longer in `left`. */
  ghost function Removed(parts: Parts, left: Parts): nat { |Msns(parts) - Msns(left)| }

  lemma {:induction false} LawExactly(parts: Parts, log: seq<Entry>, cut: nat, at: Seq, p: Part, cap: nat)
    requires Ascending(log) && Stepped(log) && Boundary(log, cut) && Shows(parts, log, cut) && at !in parts
    requires log[|log| - 1].part.msn <= p.msn <= log[|log| - 1].part.msn + 1
    ensures var left := Evict(parts[at := p], cap, p.msn);
            left != map[]
            && (FirstMsn(left) == log[cut].part.msn + Removed(parts, left) <==> InPlace(parts, at, p.msn, cap))
    decreases |log| - cut
  {
    hide Ascending, Stepped, Family, Msns, Evict;
    var more, lo, last := parts[at := p], log[cut].part.msn, log[|log| - 1].part.msn;
    ShowsFirst(parts, log, cut);
    PutLeast(parts, at, p);
    PutCount(parts, at, p);
    hide Shows;
    EvictSmall(more, cap, p.msn);
    if |more| > cap { EvictStep(more, cap, p.msn); }
    if at < Least(parts.Keys) || |parts| < cap || lo == p.msn {
      NoneRemoved(parts, at, p);
    } else {
      DropPut(parts, at, p, lo);
      var rest := parts - Family(parts, lo);
      Dropping(parts, Least(parts.Keys));
      if lo == last {
        OnlyOneParent(parts, log, cut);
        EvictLone(at, p, cap);
        LoneFirst(at, p);
        LoneMsns(at, p);
        assert Removed(parts, map[at := p]) == 1 by { assert {lo} - {p.msn} == {lo}; }
      } else {
        NextParent(log, cut);
        EvictOldest(parts, log, cut);
        LawExactly(rest, log, ParentEnd(log, cut), at, p, cap);
        OneMoreRemoved(parts, Least(parts.Keys), at, p, cap);
      }
    }
  }

  lemma NoneRemoved(parts: Parts, at: Seq, p: Part)
    requires at !in parts
    ensures Removed(parts, parts[at := p]) == 0
  {
    forall m | m in Msns(parts) ensures m in Msns(parts[at := p]) {
      var s :| s in parts && parts[s].msn == m;
      assert parts[at := p][s].msn == m;
    }
    assert Msns(parts) - Msns(parts[at := p]) == {};
  }

  lemma LoneFirst(at: Seq, p: Part)
    ensures var one := map[at := p]; at in one && FirstMsn(one) == p.msn
  {
    assert map[at := p].Keys == {at};
    LeastIs({at}, at);
  }

  lemma LoneMsns(at: Seq, p: Part)
    ensures Msns(map[at := p]) == {p.msn}
  {
    assert map[at := p][at] == p;
  }

  lemma OneMoreRemoved(parts: Parts, s: Seq, at: Seq, p: Part, cap: nat)
    requires s in parts && at !in parts && p.msn != parts[s].msn
    ensures var rest := parts - Family(parts, parts[s].msn);
            var left := Evict(rest[at := p], cap, p.msn);
            Removed(parts, left) == Removed(rest, left) + 1
  {
    hide Evict, Family;
    var lo := parts[s].msn;
    var rest := parts - Family(parts, lo);
    var left := Evict(rest[at := p], cap, p.msn);
    MsnsWithout(parts, s);
    EvictOnlyDrops(rest[at := p], cap, p.msn);
    assert lo !in Msns(left) by { GoneFrom(rest, at, p, left, lo); }
    hide Msns;
    assert Msns(parts) - Msns(left) == (Msns(rest) - Msns(left)) + {lo};
  }

  lemma GoneFrom(rest: Parts, at: Seq, p: Part, left: Parts, lo: nat)
    requires lo !in Msns(rest) && p.msn != lo
    requires forall s :: s in left ==> s in rest[at := p] && left[s] == rest[at := p][s]
    ensures lo !in Msns(left)
  {
    forall s | s in left ensures left[s].msn != lo {
      if s != at { assert rest[s].msn in Msns(rest); }
    }
  }

  /** For a part with a new number, pushed in any order: the media sequence rises by exactly the number of
      parents removed if and only if the part finds its place. */
  lemma MediaLawExactly(h: Shared, log: seq<Entry>, cut: nat, at: Seq, bytes: Bytes, info: Option<Info>, wall: nat)
    requires Window(h, log, cut) && log != [] && at !in h.parts
    ensures var h' := h.Push(at, bytes, info, wall);
            h'.MediaSequence() == h.MediaSequence() + Removed(h.parts, h'.parts) <==>
            InPlace(h.parts, at, h.Made(bytes, info, wall).msn, h.Cap())
  {
    hide Evict, Removed, InPlace, Shows, Ascending, Stepped;
    OldestIsFirst(h, log, cut);
    LawExactly(h.parts, log, cut, at, h.Made(bytes, info, wall), h.Cap());
  }

  /** Below the cap, in closed form: it stays where it is if and only if the part is not the earliest, or
      belongs to the earliest parent. */
  lemma MediaStaysExactly(h: Shared, at: Seq, bytes: Bytes, info: Option<Info>, wall: nat)
    requires h.parts != map[] && at !in h.parts && |h.parts| < h.Cap()
    ensures h.Push(at, bytes, info, wall).MediaSequence() == h.MediaSequence() <==>
            at > Least(h.parts.Keys) || h.Made(bytes, info, wall).msn == h.MediaSequence()
  {
    hide Evict;
    var p := h.Made(bytes, info, wall);
    PutLeast(h.parts, at, p);
    PutCount(h.parts, at, p);
    EvictSmall(h.parts[at := p], h.Cap(), p.msn);
    assert h.parts[at := p] != map[];
  }

  // ---- the edge, out of order ----

  /** A late keyframe survives alone exactly when it lands inside an open parent that already fills the window. */
  lemma {:induction false} LateKeyframeAlone(parts: Parts, log: seq<Entry>, cut: nat, at: Seq, p: Part, cap: nat)
    requires Ascending(log) && Stepped(log) && Boundary(log, cut) && Shows(parts, log, cut) && at !in parts
    requires p.msn == log[|log| - 1].part.msn + 1 && at < log[|log| - 1].at
    ensures var left, fam := Evict(parts[at := p], cap, p.msn), Family(parts, log[|log| - 1].part.msn);
            && fam != {} && (log[|log| - 1].at !in left <==> |fam| >= cap && at > Least(fam))
            && (log[|log| - 1].at !in left ==> left == map[at := p])
    decreases |log| - cut
  {
    hide Ascending, Stepped, Evict, Family;
    var more, lo, last := parts[at := p], log[cut].part.msn, log[|log| - 1].part.msn;
    LastListed(parts, log, cut);
    Climbs(log, cut, |log| - 1);
    FamilyWithin(parts, last);
    ShowsFirst(parts, log, cut);
    PutLeast(parts, at, p);
    PutCount(parts, at, p);
    EvictSmall(more, cap, p.msn);
    if |more| > cap { EvictStep(more, cap, p.msn); }
    if at >= Least(parts.Keys) && |parts| >= cap {
      DropPut(parts, at, p, lo);
      if lo == last {
        OnlyOneParent(parts, log, cut);
        EvictLone(at, p, cap);
      } else {
        NextParent(log, cut);
        EvictOldest(parts, log, cut);
        OtherFamily(parts, lo, last);
        hide Shows;
        LateKeyframeAlone(parts - Family(parts, lo), log, ParentEnd(log, cut), at, p, cap);
      }
    }
  }

  lemma LastListed(parts: Parts, log: seq<Entry>, cut: nat)
    requires cut < |log| && Shows(parts, log, cut)
    ensures log[|log| - 1].at in parts && log[|log| - 1].at in Family(parts, log[|log| - 1].part.msn)
  {}

  lemma FamilyWithin(parts: Parts, m: nat)
    ensures Family(parts, m) <= parts.Keys && |Family(parts, m)| <= |parts|
    ensures Family(parts, m) != {} ==> Least(parts.Keys) <= Least(Family(parts, m))
  {
    assert parts.Keys == Family(parts, m) + (parts.Keys - Family(parts, m));
  }

  lemma OtherFamily(parts: Parts, lo: nat, m: nat)
    requires lo != m
    ensures Family(parts - Family(parts, lo), m) == Family(parts, m)
  {}

  /** For a part with a new number, pushed in any order: the reload edge moves forward if and only if the
      part is the newest, or is no keyframe of a low-latency stream, or lands inside an open parent that
      already fills the window. */
  lemma PushMovesEdgeExactly(h: Shared, log: seq<Entry>, cut: nat, at: Seq, bytes: Bytes, info: Option<Info>, wall: nat)
    requires Window(h, log, cut) && log != [] && at !in h.parts
    ensures h.LiveEdge().Some? && h.Push(at, bytes, info, wall).LiveEdge().Some? && Family(h.parts, h.cur) != {}
    ensures LexLess(h.LiveEdge().value, h.Push(at, bytes, info, wall).LiveEdge().value) <==>
            || at > Greatest(h.parts.Keys) || (h.ll && !Keyframe(info))
            || (|Family(h.parts, h.cur)| >= h.Cap() && at > Least(Family(h.parts, h.cur)))
  {
    hide Shows, Ascending, Stepped, Evict, Family, InOrder;
    ShowsLast(h.parts, log, cut);
    LastListed(h.parts, log, cut);
    var p, last := h.Made(bytes, info, wall), log[|log| - 1].at;
    if at > last {
      assert InOrder(log, at) by { InOrderIs(log, at); }
      PushMovesEdge(h, log, cut, at, bytes, info, wall);
    } else if p.msn == h.cur {
      JoinsOpen(h.parts, at, p, h.Cap(), last);
    } else {
      LateKeyframeAlone(h.parts, log, cut, at, p, h.Cap());
      OpensLate(h.parts, at, p, h.Cap(), last);
    }
  }

  lemma InOrderIs(log: seq<Entry>, at: Seq)
    requires log != [] && at > log[|log| - 1].at
    ensures InOrder(log, at)
  {}

  lemma JoinsOpen(parts: Parts, at: Seq, p: Part, cap: nat, last: Seq)
    requires last in parts && IsGreatest(parts.Keys, last) && at !in parts && at < last && parts[last].msn == p.msn
    ensures var left := Evict(parts[at := p], cap, p.msn);
            left != map[] && Greatest(left.Keys) == last && left[last].msn == p.msn
            && |Family(left, p.msn)| == |Family(parts, p.msn)| + 1
  {
    hide Evict;
    var left := Evict(parts[at := p], cap, p.msn);
    EvictOnlyDrops(parts[at := p], cap, p.msn);
    assert last in left;
    GreatestIs(left.Keys, last);
    assert Family(left, p.msn) == Family(parts, p.msn) + {at};
  }

  lemma OpensLate(parts: Parts, at: Seq, p: Part, cap: nat, last: Seq)
    requires last in parts && IsGreatest(parts.Keys, last) && at !in parts && at < last && parts[last].msn < p.msn
    requires var left := Evict(parts[at := p], cap, p.msn); last !in left ==> left == map[at := p]
    ensures var left := Evict(parts[at := p], cap, p.msn);
            left != map[]
            && (if last in left
                then Greatest(left.Keys) == last && left[last].msn == parts[last].msn
                     && |Family(left, parts[last].msn)| <= |Family(parts, parts[last].msn)|
                else left[Greatest(left.Keys)].msn == p.msn && |Family(left, p.msn)| == 1)
  {
    hide Evict;
    var left, m := Evict(parts[at := p], cap, p.msn), parts[last].msn;
    EvictOnlyDrops(parts[at := p], cap, p.msn);
    if last in left {
      GreatestIs(left.Keys, last);
      assert Family(left, m) <= Family(parts, m);
      assert Family(parts, m) == Family(left, m) + (Family(parts, m) - Family(left, m));
    } else {
      assert left.Keys == {at};
      GreatestIs({at}, at);
      assert Family(left, p.msn) == {at};
    }
  }

  /** A keyframe delivered late takes the head of the list with a newer parent number: the media sequence
      jumps although nothing was removed. */
  lemma LateKeyframeBreaksTheList()
    ensures var key := Some(Info(true, 18_000));
            var h := Shared(map[], true, 200, 2_000, 0, 0, false).Push(5, [1], key, 0).Push(6, [2], key, 0);
            && h.MediaSequence() == 0 && h.Push(3, [3], key, 0).MediaSequence() == 2
            && Msns(h.parts) <= Msns(h.Push(3, [3], key, 0).parts)
  {
    var key := Some(Info(true, 18_000));
    var a := Part([1], true, 18_000, 0, 0);
    var b := Part([2], true, 18_000, 1, 0);
    var c := Part([3], true, 18_000, 2, 0);
    var h0 := Shared(map[], true, 200, 2_000, 0, 0, false);
    var h1 := h0.Push(5, [1], key, 0);
    assert h1.parts == map[5 := a];
    var h2 := h1.Push(6, [2], key, 0);
    assert h2.parts == map[5 := a, 6 := b];
    var h3 := h2.Push(3, [3], key, 0);
    assert h3.parts == map[5 := a, 6 := b, 3 := c];
    hide Shared.Push;
    LeastIs(h2.parts.Keys, 5);
    LeastIs(h3.parts.Keys, 3);
    assert h3.parts[3] == c && h2.parts[5] == a;
    assert forall s :: s in h2.parts ==> s in h3.parts && h3.parts[s] == h2.parts[s];
  }

  // ---- runs in any order ----

  /** The sink with everything pushed since the last reset, in order of pushing. */
  datatype Loose = Loose(h: Shared, log: seq<Entry>)

  ghost function LooseNext(k: Loose, a: Act): Loose {
    match a
    case PushSegment(at, bytes, info, wall) =>
      Loose(k.h.Push(at, bytes, info, wall), k.log + [Entry(at, k.h.Made(bytes, info, wall))])
    case Configure(low, part, target) => k.(h := k.h.Configure(low, part, target))
    case Reset => Loose(k.h.Reset(), [])
  }

  /** No sequence number is pushed twice between resets. */
  ghost predicate NewNumber(k: Loose, a: Act) {
    a.PushSegment? ==> forall i :: 0 <= i < |k.log| ==> k.log[i].at != a.at
  }

  /** A sink from its creation, fed anything in any order. */
  ghost predicate IsFedRun(tr: seq<Loose>, acts: seq<Act>) {
    && |tr| == |acts| + 1
    && tr[0] == Loose(Shared(map[], tr[0].h.ll, tr[0].h.partMs, tr[0].h.targetMs, 0, 0, false), [])
    && forall i :: 0 <= i < |acts| ==> tr[i + 1] == LooseNext(tr[i], acts[i])
  }

  /** One fed no number twice between resets. */
  ghost predicate IsLooseRun(tr: seq<Loose>, acts: seq<Act>) {
    IsFedRun(tr, acts) && forall i :: 0 <= i < |acts| ==> NewNumber(tr[i], acts[i])
  }

  /** Parents are listed whole or not at all. */
  ghost predicate Whole(parts: Parts, log: seq<Entry>) {
    && (forall s :: s in parts ==> exists i :: 0 <= i < |log| && log[i].at == s)
    && (forall i :: 0 <= i < |log| && log[i].part.msn in Msns(parts) ==>
          log[i].at in parts && parts[log[i].at] == log[i].part)
    && (forall i :: 0 <= i < |log| && log[i].at in parts ==> parts[log[i].at] == log[i].part)
  }

  ghost predicate LooseInv(k: Loose) {
    && Whole(k.h.parts, k.log)
    && (forall i :: 0 <= i < |k.log| ==> k.log[i].part.msn <= k.h.cur)
    && (if k.log == [] then k.h.parts == map[] && k.h.next == 0 && k.h.cur == 0 && !k.h.haveAny
        else k.h.haveAny && k.h.next == k.h.cur + 1 && k.h.cur in Msns(k.h.parts))
  }

  lemma DropWhole(parts: Parts, log: seq<Entry>, m: nat)
    requires Whole(parts, log)
    ensures Whole(parts - Family(parts, m), log)
  {
    var rest := parts - Family(parts, m);
    forall i | 0 <= i < |log| && log[i].part.msn in Msns(rest)
      ensures log[i].at in rest && rest[log[i].at] == log[i].part
    {
      var s :| s in rest && rest[s].msn == log[i].part.msn;
      assert parts[s].msn == log[i].part.msn;
      assert log[i].part.msn in Msns(parts);
    }
  }

  lemma {:induction false} EvictWhole(parts: Parts, log: seq<Entry>, cap: nat, open: nat)
    requires Whole(parts, log)
    ensures var left := Evict(parts, cap, open);
            Whole(left, log) && (left == map[] || |left| <= cap || FirstMsn(left) == open)
    decreases |parts|
  {
    hide Whole, Evict, Family;
    if |parts| <= cap {
      EvictSmall(parts, cap, open);
    } else {
      EvictStep(parts, cap, open);
      var oldest := parts[Least(parts.Keys)].msn;
      if oldest != open {
        Dropping(parts, Least(parts.Keys));
        DropWhole(parts, log, oldest);
        EvictWhole(parts - Family(parts, oldest), log, cap, open);
      }
    }
  }

  lemma PutWhole(k: Loose, at: Seq, p: Part)
    requires LooseInv(k) && (forall i :: 0 <= i < |k.log| ==> k.log[i].at != at)
    requires p.msn == k.h.next || (k.h.haveAny && p.msn == k.h.cur)
    ensures Whole(k.h.parts[at := p], k.log + [Entry(at, p)])
  {
    var log, more := k.log + [Entry(at, p)], k.h.parts[at := p];
    assert forall i :: 0 <= i < |k.log| ==> log[i] == k.log[i];
    assert log[|k.log|].at == at;
    forall s | s in more ensures exists i :: 0 <= i < |log| && log[i].at == s {
      if s != at { var i :| 0 <= i < |k.log| && k.log[i].at == s; assert log[i].at == s; }
    }
    forall i | 0 <= i < |log| && log[i].part.msn in Msns(more)
      ensures log[i].at in more && more[log[i].at] == log[i].part
    {
      if i < |k.log| { StillListed(k, at, p, i); }
    }
  }

  lemma StillListed(k: Loose, at: Seq, p: Part, i: nat)
    requires LooseInv(k) && i < |k.log| && k.log[i].part.msn in Msns(k.h.parts[at := p])
    requires p.msn == k.h.next || (k.h.haveAny && p.msn == k.h.cur)
    ensures k.log[i].part.msn in Msns(k.h.parts)
  {
    var more := k.h.parts[at := p];
    var s :| s in more && more[s].msn == k.log[i].part.msn;
    if s != at { assert k.h.parts[s].msn == k.log[i].part.msn; }
  }

  /** A push in any order keeps whole parents, and ends within the cap or with the open parent first. */
  lemma PushWhole(k: Loose, at: Seq, bytes: Bytes, info: Option<Info>, wall: nat)
    requires LooseInv(k) && NewNumber(k, PushSegment(at, bytes, info, wall))
    ensures var n := LooseNext(k, PushSegment(at, bytes, info, wall));
            && LooseInv(n) && k.h.cur <= n.h.cur && n.h.parts != map[]
            && (|n.h.parts| <= k.h.Cap() || n.h.MediaSequence() == n.h.cur)
            && (forall m :: m in Msns(n.h.parts) ==> m in Msns(k.h.parts) || m == n.h.cur)
  {
    hide Evict, Whole;
    var p, n := k.h.Made(bytes, info, wall), LooseNext(k, PushSegment(at, bytes, info, wall));
    PutWhole(k, at, p);
    var more := k.h.parts[at := p];
    EvictWhole(more, n.log, k.h.Cap(), p.msn);
    EvictOnlyDrops(more, k.h.Cap(), p.msn);
    assert at in n.h.parts && n.h.parts[at].msn == p.msn;
    forall m | m in Msns(n.h.parts) ensures m in Msns(k.h.parts) || m == n.h.cur {
      var s :| s in n.h.parts && n.h.parts[s].msn == m;
      if s != at { assert k.h.parts[s].msn == m; }
    }
  }

  lemma LooseRunStep(tr: seq<Loose>, acts: seq<Act>, i: nat)
    requires IsLooseRun(tr, acts) && i < |acts|
    ensures NewNumber(tr[i], acts[i]) && tr[i + 1] == LooseNext(tr[i], acts[i])
  {
    hide NewNumber, LooseNext;
  }

  /** In whatever order parts arrive, every listed parent holds exactly what was ever pushed under it, and
      after a push the window is within its cap or begins with the open parent. */
  lemma {:induction false} AnyOrderKeepsWhole(tr: seq<Loose>, acts: seq<Act>, i: nat)
    requires IsLooseRun(tr, acts) && i <= |acts|
    ensures LooseInv(tr[i])
    ensures forall m :: m in Msns(tr[i].h.parts) ==> Family(tr[i].h.parts, m) == Pushed(tr[i].log, m)
    ensures i > 0 && acts[i - 1].PushSegment? ==>
              |tr[i].h.parts| <= tr[i].h.Cap() || tr[i].h.MediaSequence() == tr[i].h.cur
    decreases i
  {
    hide LooseInv, NewNumber, Msns, Family, Pushed, Shared.MediaSequence, Evict;
    if i == 0 {
      LooseStart(tr[0]);
    } else {
      AnyOrderKeepsWhole(tr, acts, i - 1);
      LooseRunStep(tr, acts, i - 1);
      var k, a := tr[i - 1], acts[i - 1];
      if a.PushSegment? {
        PushWhole(k, a.at, a.bytes, a.info, a.wall);
        PushKeepsMode(k.h, a.at, a.bytes, a.info, a.wall);
      } else {
        LooseQuiet(k, a);
      }
    }
    forall m | m in Msns(tr[i].h.parts) ensures Family(tr[i].h.parts, m) == Pushed(tr[i].log, m) {
      WholeFamily(tr[i], m);
    }
  }

  lemma LooseStart(k: Loose)
    requires k.log == [] && k.h.parts == map[] && k.h.next == 0 && k.h.cur == 0 && !k.h.haveAny
    ensures LooseInv(k)
  {}

  lemma LooseQuiet(k: Loose, a: Act)
    requires LooseInv(k) && !a.PushSegment?
    ensures LooseInv(LooseNext(k, a))
  {
    hide Whole;
    if a.Reset? { LooseStart(LooseNext(k, a)); }
  }

  lemma WholeFamily(k: Loose, m: nat)
    requires LooseInv(k) && m in Msns(k.h.parts)
    ensures Family(k.h.parts, m) == Pushed(k.log, m)
  {
    forall s | s in Family(k.h.parts, m) ensures s in Pushed(k.log, m) {
      var i :| 0 <= i < |k.log| && k.log[i].at == s;
    }
  }

  ghost predicate Unchanged(a: Loose, b: Loose, m: nat) {
    && Family(b.h.parts, m) == Family(a.h.parts, m)
    && forall s :: s in Family(a.h.parts, m) ==> b.h.parts[s] == a.h.parts[s]
  }

  /** And a closed segment, while it stays listed, never changes: in any order it leaves whole. */
  lemma {:induction false} AnyOrderClosedNeverChange(tr: seq<Loose>, acts: seq<Act>, i: nat, j: nat, m: nat)
    requires IsLooseRun(tr, acts) && i <= j <= |acts| && NoReset(acts, i, j)
    requires tr[i].log != [] && m < tr[i].h.cur && m in Msns(tr[j].h.parts)
    ensures m in Msns(tr[i].h.parts) && Unchanged(tr[i], tr[j], m)
    ensures tr[i].h.cur <= tr[j].h.cur && |tr[i].log| <= |tr[j].log| && tr[j].log[..|tr[i].log|] == tr[i].log
    ensures forall x :: |tr[i].log| <= x < |tr[j].log| ==> tr[j].log[x].part.msn >= tr[i].h.cur
    decreases j
  {
    LaterOnly(tr, acts, i, j, m);
    AnyOrderKeepsWhole(tr, acts, i);
    AnyOrderKeepsWhole(tr, acts, j);
    hide IsLooseRun, NoReset;
    SameFamily(tr[i], tr[j], m);
  }

  lemma {:induction false} LaterOnly(tr: seq<Loose>, acts: seq<Act>, i: nat, j: nat, m: nat)
    requires IsLooseRun(tr, acts) && i <= j <= |acts| && NoReset(acts, i, j) && tr[i].log != [] && m < tr[i].h.cur
    ensures m in Msns(tr[j].h.parts) ==> m in Msns(tr[i].h.parts)
    ensures tr[i].h.cur <= tr[j].h.cur && |tr[i].log| <= |tr[j].log| && tr[j].log[..|tr[i].log|] == tr[i].log
    ensures forall x :: |tr[i].log| <= x < |tr[j].log| ==> tr[j].log[x].part.msn >= tr[i].h.cur
    decreases j
  {
    hide LooseInv, Msns, Evict, Shared.MediaSequence, NewNumber;
    if i < j {
      LaterOnly(tr, acts, i, j - 1, m);
      AnyOrderKeepsWhole(tr, acts, j - 1);
      LooseRunStep(tr, acts, j - 1);
      var k, a := tr[j - 1], acts[j - 1];
      if a.PushSegment? {
        PushWhole(k, a.at, a.bytes, a.info, a.wall);
        assert tr[j].log[|k.log|].part.msn == tr[j].h.cur;
      }
    }
  }

  lemma SameFamily(a: Loose, b: Loose, m: nat)
    requires LooseInv(a) && LooseInv(b) && m < a.h.cur && m in Msns(a.h.parts) && m in Msns(b.h.parts)
    requires |a.log| <= |b.log| && b.log[..|a.log|] == a.log
    requires forall x :: |a.log| <= x < |b.log| ==> b.log[x].part.msn >= a.h.cur
    ensures Unchanged(a, b, m)
  {
    WholeFamily(a, m);
    WholeFamily(b, m);
    assert forall x :: 0 <= x < |a.log| ==> b.log[x] == a.log[x];
    assert Pushed(a.log, m) == Pushed(b.log, m);
  }

  // ---- when a parent opens ----

  /** The counters follow the last push. */
  ghost predicate Opened(h: Shared, log: seq<Entry>) {
    if log == [] then !h.haveAny && h.next == 0
    else h.haveAny && h.cur == log[|log| - 1].part.msn && h.next == h.cur + 1
  }

  lemma WindowIsOpened(h: Shared, log: seq<Entry>, cut: nat)
    requires Window(h, log, cut)
    ensures Opened(h, log)
  {
    hide Shows, Ascending, Stepped;
  }

  lemma PushJoins(h: Shared, log: seq<Entry>, at: Seq, bytes: Bytes, info: Option<Info>, wall: nat)
    requires Opened(h, log)
    ensures var (e, h') := (Entry(at, h.Made(bytes, info, wall)), h.Push(at, bytes, info, wall));
            && Joins(e, h.ll, log, at, bytes, info, wall)
            && at in h'.parts && h'.parts[at] == e.part && Opened(h', log + [e])
  {
    hide Evict;
    var p := h.Made(bytes, info, wall);
    EvictOnlyDrops(h.parts[at := p], h.Cap(), p.msn);
  }

  lemma FedRunStep(tr: seq<Loose>, acts: seq<Act>, i: nat)
    requires IsFedRun(tr, acts) && i < |acts|
    ensures tr[i + 1] == LooseNext(tr[i], acts[i])
  {
    hide LooseNext;
  }

  lemma {:induction false} EveryOpened(tr: seq<Loose>, acts: seq<Act>, i: nat)
    requires IsFedRun(tr, acts) && i <= |acts|
    ensures Opened(tr[i].h, tr[i].log)
    decreases i
  {
    hide Evict;
    if i > 0 {
      EveryOpened(tr, acts, i - 1);
      FedRunStep(tr, acts, i - 1);
      var k, a := tr[i - 1], acts[i - 1];
      if a.PushSegment? { PushJoins(k.h, k.log, a.at, a.bytes, a.info, a.wall); }
    }
  }

  /** In every run, whatever is fed to the sink: each push adds one entry, whose parent follows from the parent
      of the push before it and from whether the fragment is a keyframe, and that part is then listed. */
  lemma ParentOpensExactly(tr: seq<Loose>, acts: seq<Act>, i: nat)
    requires IsFedRun(tr, acts) && i < |acts| && acts[i].PushSegment?
    ensures var (k, n, a) := (tr[i], tr[i + 1], acts[i]);
            && |n.log| == |k.log| + 1 && n.log[..|k.log|] == k.log
            && Joins(n.log[|k.log|], k.h.ll, k.log, a.at, a.bytes, a.info, a.wall)
            && a.at in n.h.parts && n.h.parts[a.at] == n.log[|k.log|].part && n.h.ll == k.h.ll
  {
    hide Evict, Opened;
    EveryOpened(tr, acts, i);
    FedRunStep(tr, acts, i);
    var k, a := tr[i], acts[i];
    PushJoins(k.h, k.log, a.at, a.bytes, a.info, a.wall);
  }

  // ---- what an eviction takes ----

  /** `m` left last: with it the window would still be over its cap, every part left is later than its first,
      and no other parent that left began later. */
  ghost predicate LastToGo(parts: Parts, left: Parts, m: nat, cap: nat) {
    && m in Msns(parts) && m !in Msns(left) && Family(parts, m) != {}
    && |left| + |Family(parts, m)| > cap
    && (forall s :: s in left ==> Least(Family(parts, m)) < s)
    && (forall n :: n in Msns(parts) && n !in Msns(left) ==> Begun(Family(parts, n), Least(Family(parts, m))))
  }

  ghost predicate Begun(family: set<Seq>, at: Seq) { exists s :: s in family && s <= at }

  /** Eviction takes whole parents, oldest first, no more than it must and never the open one. */
  lemma {:induction false} EvictsNoMoreThanItMust(parts: Parts, cap: nat, open: nat)
    ensures var left := Evict(parts, cap, open);
            && (left == parts || exists m :: m != open && LastToGo(parts, left, m, cap))
            && (forall s :: s in parts && s !in left ==> parts[s].msn !in Msns(left))
    decreases |parts|
  {
    hide Evict, Family, LastToGo, Msns;
    EvictSmall(parts, cap, open);
    if |parts| > cap {
      EvictStep(parts, cap, open);
      var first := Least(parts.Keys);
      var oldest := parts[first].msn;
      if oldest != open {
        Dropping(parts, first);
        var rest := parts - Family(parts, oldest);
        var left := Evict(rest, cap, open);
        EvictsNoMoreThanItMust(rest, cap, open);
        EvictOnlyDrops(rest, cap, open);
        OldestGone(parts, left, first);
        if left == rest {
          OldestLast(parts, first, cap);
        } else {
          var m :| m != open && LastToGo(rest, left, m, cap);
          StillLast(parts, first, left, m, cap);
        }
      }
    }
  }

  lemma OldestGone(parts: Parts, left: Parts, first: Seq)
    requires first in parts && var rest := parts - Family(parts, parts[first].msn);
             && (forall s :: s in left ==> s in rest && left[s] == rest[s])
             && (forall s :: s in rest && s !in left ==> rest[s].msn !in Msns(left))
    ensures forall s :: s in parts && s !in left ==> parts[s].msn !in Msns(left)
  {}

  lemma FamilySize(parts: Parts, m: nat)
    ensures |parts - Family(parts, m)| + |Family(parts, m)| == |parts|
  {
    var rest := parts - Family(parts, m);
    assert rest.Keys + Family(parts, m) == parts.Keys && rest.Keys !! Family(parts, m);
  }

  lemma OldestLast(parts: Parts, first: Seq, cap: nat)
    requires parts != map[] && first == Least(parts.Keys) && |parts| > cap
    ensures LastToGo(parts, parts - Family(parts, parts[first].msn), parts[first].msn, cap)
  {
    var m := parts[first].msn;
    FamilySize(parts, m);
    assert first in Family(parts, m);
    LeastIs(Family(parts, m), first);
    var left := parts - Family(parts, m);
    forall n | n in Msns(parts) && n !in Msns(left) ensures Begun(Family(parts, n), first) {
      MsnsWithout(parts, first);
    }
  }

  lemma StillLast(parts: Parts, first: Seq, left: Parts, m: nat, cap: nat)
    requires parts != map[] && first == Least(parts.Keys)
    requires LastToGo(parts - Family(parts, parts[first].msn), left, m, cap)
    ensures LastToGo(parts, left, m, cap)
  {
    var oldest := parts[first].msn;
    var rest := parts - Family(parts, oldest);
    WithoutOldest(parts, first, m);
    assert Family(rest, m) == Family(parts, m);
    var lo: nat := Least(Family(parts, m));
    forall n | n in Msns(parts) && n !in Msns(left) ensures Begun(Family(parts, n), lo) {
      if n == oldest {
        assert first in Family(parts, oldest);
      } else {
        MsnsWithout(parts, first);
        OtherFamily(parts, oldest, n);
        hide Begun, Family, Msns;
        assert Begun(Family(rest, n), lo);
      }
    }
  }

  lemma WithoutOldest(parts: Parts, first: Seq, m: nat)
    requires first in parts && first == Least(parts.Keys) && m in Msns(parts - Family(parts, parts[first].msn))
    ensures m != parts[first].msn && m in Msns(parts) && Family(parts, m) != {} && first <= Least(Family(parts, m))
    ensures Family(parts - Family(parts, parts[first].msn), m) == Family(parts, m)
  {
    var rest := parts - Family(parts, parts[first].msn);
    var x :| x in rest && rest[x].msn == m;
    assert parts[x].msn == m && x in Family(parts, m);
    OtherFamily(parts, parts[first].msn, m);
  }

  /** In every run a push that finds room removes nothing, and one that does not removes whole parents, oldest
      first, only until the rest fits. */
  lemma EvictionIsNeeded(tr: seq<Loose>, acts: seq<Act>, i: nat)
    requires IsFedRun(tr, acts) && i < |acts| && acts[i].PushSegment?
    ensures var fed, left := tr[i].h.parts[acts[i].at := tr[i + 1].log[|tr[i].log|].part], tr[i + 1].h.parts;
            var cap := if tr[i].h.ll then 60 else 12;
            && (forall s :: s in left ==> s in fed && left[s] == fed[s])
            && (forall s :: s in fed && s !in left ==> fed[s].msn !in Msns(left))
            && (left == fed || exists m :: LastToGo(fed, left, m, cap))
            && (|left| <= cap || tr[i + 1].h.MediaSequence() == tr[i + 1].h.cur)
  {
    hide Evict, LastToGo, Msns, Whole;
    FedRunStep(tr, acts, i);
    var k, a := tr[i], acts[i];
    var p := k.h.Made(a.bytes, a.info, a.wall);
    var fed := k.h.parts[a.at := p];
    EvictsNoMoreThanItMust(fed, k.h.Cap(), p.msn);
    EvictOnlyDrops(fed, k.h.Cap(), p.msn);
    EvictFits(fed, k.h.Cap(), p.msn);
  }

  lemma {:induction false} EvictFits(parts: Parts, cap: nat, open: nat)
    ensures var left := Evict(parts, cap, open); left == map[] || |left| <= cap || FirstMsn(left) == open
    decreases |parts|
  {
    hide Evict, Family;
    EvictSmall(parts, cap, open);
    if |parts| > cap {
      EvictStep(parts, cap, open);
      var oldest := parts[Least(parts.Keys)].msn;
      if oldest != open {
        Dropping(parts, Least(parts.Keys));
        EvictFits(parts - Family(parts, oldest), cap, open);
      }
    }
  }

  /** A blocking reload may answer exactly when a later parent has begun, or the part asked for was pushed
      under its own. */
  lemma ReadyExactly(tr: seq<Track>, acts: seq<Act>, i: nat, msn: nat, part: nat)
    requires IsHlsRun(tr, acts) && i <= |acts|
    ensures tr[i].h.Ready(msn, part) <==>
            || (exists k :: 0 <= k < |tr[i].log| && tr[i].log[k].part.msn > msn)
            || |Pushed(tr[i].log, msn)| > part
  {
    EveryWindow(tr, acts, i);
    hide IsHlsRun, Shows, Ascending;
    var h, log := tr[i].h, tr[i].log;
    if log == [] {
      assert Pushed(log, msn) == {};
    } else {
      EdgeIs(h, log, tr[i].cut);
      forall k | 0 <= k < |log| ensures log[k].part.msn <= h.cur { Climbs(log, k, |log| - 1); }
      if msn > h.cur { assert Pushed(log, msn) == {}; }
    }
  }
}
