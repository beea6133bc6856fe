/** The relay supervisor (crates/unstation-node/src/supervisor.rs): recruitments, releases and sweeps as
    steps over the table of stream workers. What a worker reports, the clock, and whether a spawn
    succeeds are inputs. */
module Supervisor {
  import opened Common
  import opened Policy

  datatype Entry = Entry(pinned: bool, publisher: Option<Digest>, released: bool, zeroSince: Option<nat>,
                         lastBudget: nat, dormant: bool)

  type Entries = map<Digest, Entry>

  /** What a worker reports about itself. */
  datatype Snap = Snap(peers: nat, head: Seq, sinceHead: nat, sinceSpawn: nat)

  /** One look at all workers: the time in milliseconds, their reports, and the table's order. */
  datatype Look = Look(now: nat, report: Digest -> Snap, order: seq<Digest>)

  function NewEntry(pinned: bool, publisher: Option<Digest>, budget: nat, now: nat): Entry {
    Entry(pinned, publisher, false, Some(now), budget, false)
  }

  // ---- looking ----

  /** The zero-peer clock starts with the last peer's departure. */
  function Rolled(e: Entry, snap: Snap, now: nat): Entry {
    e.(zeroSince := if snap.peers > 0 then None else if e.zeroSince.None? then Some(now) else e.zeroSince)
  }

  function Collected(es: Entries, look: Look): Entries {
    map s | s in es :: Rolled(es[s], look.report(s), look.now)
  }

  function ViewOf(s: Digest, e: Entry, snap: Snap, now: nat): View {
    View(s, e.publisher, e.pinned, snap.peers, snap.head, snap.sinceHead, snap.sinceSpawn,
         if e.zeroSince.Some? then SatSub(now, e.zeroSince.value) / 1000 else 0, e.released)
  }

  function ViewAt(es: Entries, look: Look, s: Digest): View
    requires s in es
  {
    ViewOf(s, Rolled(es[s], look.report(s), look.now), look.report(s), look.now)
  }

  function Views(es: Entries, look: Look): seq<View>
    requires forall i :: 0 <= i < |look.order| ==> look.order[i] in es
  {
    seq(|look.order|, i requires 0 <= i < |look.order| => ViewAt(es, look, look.order[i]))
  }

  ghost predicate Sees(look: Look, es: Entries) { Enumerates(look.order, es.Keys) }

  // ---- budgets ----

  function Assign(es: Entries, bs: seq<(Digest, nat)>): Entries {
    if bs == [] then es else
      var (done, b) := (Assign(es, bs[..|bs| - 1]), bs[|bs| - 1]);
      if b.0 in done then done[b.0 := done[b.0].(lastBudget := b.1)] else done
  }

  ghost function Rebalanced(es: Entries, look: Look, cfg: Config): Entries
    requires Sees(look, es)
  {
    Assign(Collected(es, look), Budgets(Views(es, look), cfg))
  }

  // ---- steps ----

  datatype Act =
    | Recruit(stream: Digest, publisher: Digest, look: Look, spawned: bool, after: Look)
    | Release(stream: Digest, publisher: Digest)
    | Sweep(look: Look, after: Look)

  function Refreshed(e: Entry, now: nat): Entry {
    e.(released := false, zeroSince := if e.zeroSince.Some? then Some(now) else None)
  }

  /** Room is made, if the policy found any. */
  function Bumped(es: Entries, d: Decision): Entries { if d.AcceptEvicting? then es - {d.victim} else es }

  function Hosting(es: Entries, stream: Digest, publisher: Digest, cfg: Config, now: nat): Entries {
    es[stream := NewEntry(false, Some(publisher), cfg.minBudget, now)]
  }

  ghost predicate Possible(es: Entries, a: Act, cfg: Config) {
    match a
    case Release(_, _) => true
    case Recruit(stream, publisher, look, spawned, after) =>
      stream in es || (Sees(look, es)
        && (var d := Admit(publisher, stream, Views(es, look), cfg);
            !d.Reject? && spawned ==>
              Sees(after, Hosting(Bumped(Collected(es, look), d), stream, publisher, cfg, after.now))))
    case Sweep(look, after) => Sees(look, es) && Sees(after, Swept(es, look, cfg))
  }

  function Judged(es: Entries, look: Look, cfg: Config, s: Digest): Verdict
    requires s in es
  {
    Evaluate(ViewAt(es, look, s), cfg)
  }

  /** The sweep's evictions, and workers put to sleep or woken. */
  function Swept(es: Entries, look: Look, cfg: Config): Entries {
    map s | s in es && !Judged(es, look, cfg, s).Evict? ::
      Rolled(es[s], look.report(s), look.now).(dormant := Judged(es, look, cfg, s).Dormant?)
  }

  ghost function OnRecruit(es: Entries, stream: Digest, publisher: Digest, look: Look, spawned: bool, after: Look,
                           cfg: Config): Entries
    requires Possible(es, Recruit(stream, publisher, look, spawned, after), cfg)
  {
    if stream in es then es[stream := Refreshed(es[stream], look.now)] else
      var seen := Collected(es, look);
      var d := Admit(publisher, stream, Views(es, look), cfg);
      if d.Reject? then seen
      else if !spawned then Bumped(seen, d)
      else Rebalanced(Hosting(Bumped(seen, d), stream, publisher, cfg, after.now), after, cfg)
  }

  function OnRelease(es: Entries, stream: Digest, publisher: Digest): Entries {
    if stream in es && es[stream].publisher == Some(publisher) then es[stream := es[stream].(released := true)] else es
  }

  ghost function Step(es: Entries, a: Act, cfg: Config): Entries
    requires Possible(es, a, cfg)
  {
    match a
    case Recruit(stream, publisher, look, spawned, after) => OnRecruit(es, stream, publisher, look, spawned, after, cfg)
    case Release(stream, publisher) => OnRelease(es, stream, publisher)
    case Sweep(look, after) => Rebalanced(Swept(es, look, cfg), after, cfg)
  }

  // ---- what rebalancing does ----

  /** Same streams, same owners, same marks; only budgets and clocks may differ. */
  ghost predicate SameStreams(a: Entries, b: Entries) {
    && a.Keys == b.Keys
    && forall s :: s in a ==>
         a[s].pinned == b[s].pinned && a[s].publisher == b[s].publisher && a[s].released == b[s].released
  }

  lemma {:induction false} AssignSame(es: Entries, bs: seq<(Digest, nat)>)
    ensures SameStreams(es, Assign(es, bs))
    decreases |bs|
  {
    if bs != [] { AssignSame(es, bs[..|bs| - 1]); }
  }

  /** Each stream named once ends on the budget given to it. */
  lemma {:induction false} AssignGives(es: Entries, bs: seq<(Digest, nat)>, i: nat)
    requires i < |bs| && bs[i].0 in es && forall j :: i < j < |bs| ==> bs[j].0 != bs[i].0
    ensures bs[i].0 in Assign(es, bs) && Assign(es, bs)[bs[i].0].lastBudget == bs[i].1
    decreases |bs|
  {
    AssignSame(es, bs[..|bs| - 1]);
    if i < |bs| - 1 { AssignGives(es, bs[..|bs| - 1], i); }
  }

  lemma RebalancedSame(es: Entries, look: Look, cfg: Config)
    requires Sees(look, es)
    ensures SameStreams(es, Rebalanced(es, look, cfg))
  {
    hide Assign, Budgets;
    AssignSame(Collected(es, look), Budgets(Views(es, look), cfg));
  }

  /** After a rebalance every stream runs on the budget the policy names for it. */
  lemma RebalanceAssigns(es: Entries, look: Look, cfg: Config, i: nat)
    requires Sees(look, es) && i < |look.order|
    ensures look.order[i] in Rebalanced(es, look, cfg)
    ensures Rebalanced(es, look, cfg)[look.order[i]].lastBudget
            == BudgetFor(ViewAt(es, look, look.order[i]), Serving(Views(es, look)), cfg)
  {
    hide Assign, Serving, BudgetFor;
    var bs := Budgets(Views(es, look), cfg);
    assert look.order[i] in look.order;
    AssignGives(Collected(es, look), bs, i);
  }

  // ---- what every step keeps ----

  ghost function Pins(es: Entries): set<Digest> { set s | s in es && es[s].pinned }

  /** The streams a publisher has had us host. */
  ghost function Owned(es: Entries, publisher: Digest): set<Digest> {
    set s | s in es && !es[s].pinned && es[s].publisher == Some(publisher)
  }

  ghost predicate Labelled(e: Entry) { (e.pinned <==> e.publisher.None?) && (e.released ==> !e.pinned) }

  ghost predicate SupInv(es: Entries, pins: set<Digest>, cfg: Config) {
    && Pins(es) == pins
    && (forall s :: s in es ==> Labelled(es[s]))
    && (forall publisher :: |Owned(es, publisher)| <= cfg.perPublisherCap)
    && |es| <= Max(|pins|, cfg.Capacity())
  }

  /** Only unpinned streams may be gone; those left are owned as before, and no pin is released. */
  ghost predicate Kept(a: Entries, b: Entries) {
    && b.Keys <= a.Keys && (forall s :: s in a && a[s].pinned ==> s in b)
    && forall s :: s in b ==>
         b[s].pinned == a[s].pinned && b[s].publisher == a[s].publisher && (b[s].released ==> !b[s].pinned)
  }

  lemma KeptInv(a: Entries, b: Entries, pins: set<Digest>, cfg: Config)
    requires SupInv(a, pins, cfg) && Kept(a, b)
    ensures SupInv(b, pins, cfg)
  {
    assert Pins(b) == Pins(a);
    forall publisher ensures |Owned(b, publisher)| <= cfg.perPublisherCap {
      Subset(Owned(b, publisher), Owned(a, publisher));
    }
    Subset(b.Keys, a.Keys);
  }

  lemma Subset<T>(xs: set<T>, ys: set<T>)
    requires xs <= ys
    ensures |xs| <= |ys|
  {
    assert ys == xs + (ys - xs);
  }

  lemma HostInv(es: Entries, stream: Digest, publisher: Digest, pins: set<Digest>, cfg: Config, now: nat)
    requires SupInv(es, pins, cfg) && stream !in es
    requires |Owned(es, publisher)| < cfg.perPublisherCap && |es| < Max(|pins|, cfg.Capacity())
    ensures SupInv(Hosting(es, stream, publisher, cfg, now), pins, cfg)
  {
    hide Owned, Pins, Config.Capacity;
    var more := Hosting(es, stream, publisher, cfg, now);
    assert more.Keys == es.Keys + {stream};
    HostPins(es, stream, publisher, cfg, now);
    forall p ensures |Owned(more, p)| <= cfg.perPublisherCap { HostOwned(es, stream, publisher, cfg, now, p); }
  }

  lemma HostPins(es: Entries, stream: Digest, publisher: Digest, cfg: Config, now: nat)
    requires stream !in es
    ensures Pins(Hosting(es, stream, publisher, cfg, now)) == Pins(es)
  {}

  lemma HostOwned(es: Entries, stream: Digest, publisher: Digest, cfg: Config, now: nat, p: Digest)
    requires stream !in es
    ensures |Owned(Hosting(es, stream, publisher, cfg, now), p)| == |Owned(es, p)| + if p == publisher then 1 else 0
  {
    assert Owned(Hosting(es, stream, publisher, cfg, now), p) == Owned(es, p) + if p == publisher then {stream} else {};
  }

  // ---- the policy's counts are the table's ----

  ghost predicate DistinctStreams(views: seq<View>) {
    forall i, j :: 0 <= i < j < |views| ==> views[i].stream != views[j].stream
  }

  ghost function OwnedIn(views: seq<View>, publisher: Digest): set<Digest> {
    set i | 0 <= i < |views| && Owns(views[i], publisher) :: views[i].stream
  }

  lemma {:induction false} LoadCounts(views: seq<View>, publisher: Digest)
    requires DistinctStreams(views)
    ensures Load(views, publisher) == |OwnedIn(views, publisher)|
    decreases |views|
  {
    if views == [] {
      assert OwnedIn(views, publisher) == {};
    } else {
      var init, v := views[..|views| - 1], views[|views| - 1];
      LoadCounts(init, publisher);
      assert v.stream !in OwnedIn(init, publisher);
      OwnedSnoc(init, v, publisher);
      assert init + [v] == views;
    }
  }

  lemma OwnedSnoc(init: seq<View>, v: View, publisher: Digest)
    ensures OwnedIn(init + [v], publisher) == OwnedIn(init, publisher) + if Owns(v, publisher) then {v.stream} else {}
  {
    var views := init + [v];
    forall s | s in OwnedIn(init, publisher) ensures s in OwnedIn(views, publisher) {
      var i :| 0 <= i < |init| && Owns(init[i], publisher) && init[i].stream == s;
      assert views[i] == init[i];
    }
    assert views[|init|] == v;
  }

  lemma LoadIsOwned(es: Entries, look: Look, publisher: Digest)
    requires Sees(look, es)
    ensures Load(Views(es, look), publisher) == |Owned(es, publisher)| && |Views(es, look)| == |es|
  {
    var views := Views(es, look);
    LoadCounts(views, publisher);
    forall s | s in Owned(es, publisher) ensures s in OwnedIn(views, publisher) {
      assert s in look.order;
      var i :| 0 <= i < |look.order| && look.order[i] == s;
      assert views[i].stream == s && Owns(views[i], publisher);
    }
    assert OwnedIn(views, publisher) == Owned(es, publisher);
    OrderSize(look.order, es.Keys);
  }

  lemma {:induction false} OrderSize<T>(order: seq<T>, xs: set<T>)
    requires NoDup(order) && forall x :: x in order <==> x in xs
    ensures |order| == |xs|
    decreases |order|
  {
    if order == [] {
      assert xs == {};
    } else {
      var init, x := order[..|order| - 1], order[|order| - 1];
      assert order == init + [x];
      OrderSize(init, xs - {x});
    }
  }

  // ---- every step ----

  /** A recruitment evicts at most one stream, and only an unpinned one that reported no peers. */
  lemma BumpedIsIdle(es: Entries, stream: Digest, publisher: Digest, look: Look, cfg: Config)
    requires Sees(look, es)
    ensures var d := Admit(publisher, stream, Views(es, look), cfg);
            d.AcceptEvicting? ==> d.victim in es && !es[d.victim].pinned && look.report(d.victim).peers == 0
                                  && Bumped(Collected(es, look), d).Keys == es.Keys - {d.victim}
  {
    hide Load, Victim;
    var views := Views(es, look);
    AdmissionIsSafe(publisher, stream, views, cfg);
    var d := Admit(publisher, stream, views, cfg);
    if d.AcceptEvicting? {
      var v :| v in views && v.stream == d.victim && Bumpable(v);
      var i :| 0 <= i < |views| && views[i] == v;
      assert look.order[i] in look.order;
    }
  }

  lemma RecruitInv(es: Entries, a: Act, pins: set<Digest>, cfg: Config)
    requires SupInv(es, pins, cfg) && Possible(es, a, cfg) && a.Recruit? && a.stream !in es
    ensures SupInv(Step(es, a, cfg), pins, cfg)
  {
    hide SupInv, Admit, Assign, Budgets, Views, Kept, Rebalanced, Config.Capacity;
    var seen := Collected(es, a.look);
    CollectedKept(es, a.look, pins, cfg);
    KeptInv(es, seen, pins, cfg);
    var d := Admit(a.publisher, a.stream, Views(es, a.look), cfg);
    if !d.Reject? {
      BumpedIsIdle(es, a.stream, a.publisher, a.look, cfg);
      var room := Bumped(seen, d);
      BumpedKept(seen, d, pins, cfg);
      KeptInv(seen, room, pins, cfg);
      if a.spawned {
        RoomEnough(es, a, pins, cfg);
        HostInv(room, a.stream, a.publisher, pins, cfg, a.after.now);
        var hosted := Hosting(room, a.stream, a.publisher, cfg, a.after.now);
        RebalancedSame(hosted, a.after, cfg);
        SameInv(hosted, Rebalanced(hosted, a.after, cfg), pins, cfg);
      }
    }
  }

  lemma CollectedKept(es: Entries, look: Look, pins: set<Digest>, cfg: Config)
    requires SupInv(es, pins, cfg)
    ensures Kept(es, Collected(es, look))
  {}

  lemma BumpedKept(es: Entries, d: Decision, pins: set<Digest>, cfg: Config)
    requires SupInv(es, pins, cfg) && (d.AcceptEvicting? ==> d.victim in es && !es[d.victim].pinned)
    ensures Kept(es, Bumped(es, d))
  {}

  lemma SameInv(a: Entries, b: Entries, pins: set<Digest>, cfg: Config)
    requires SupInv(a, pins, cfg) && SameStreams(a, b)
    ensures SupInv(b, pins, cfg)
  {
    KeptInv(a, b, pins, cfg);
  }

  lemma RoomEnough(es: Entries, a: Act, pins: set<Digest>, cfg: Config)
    requires SupInv(es, pins, cfg) && Possible(es, a, cfg) && a.Recruit? && a.stream !in es
    requires !Admit(a.publisher, a.stream, Views(es, a.look), cfg).Reject?
    ensures var room := Bumped(Collected(es, a.look), Admit(a.publisher, a.stream, Views(es, a.look), cfg));
            |room| < Max(|pins|, cfg.Capacity()) && |Owned(room, a.publisher)| < cfg.perPublisherCap
            && a.stream !in room
  {
    hide Load, Admit, Views;
    var d := Admit(a.publisher, a.stream, Views(es, a.look), cfg);
    var seen := Collected(es, a.look);
    var room := Bumped(seen, d);
    AdmissionIsSafe(a.publisher, a.stream, Views(es, a.look), cfg);
    LoadIsOwned(es, a.look, a.publisher);
    BumpedIsIdle(es, a.stream, a.publisher, a.look, cfg);
    Subset(Owned(room, a.publisher), Owned(es, a.publisher));
    assert room.Keys == if d.AcceptEvicting? then es.Keys - {d.victim} else es.Keys;
    assert |room| == |room.Keys| && |es| == |es.Keys|;
  }

  lemma SweptKept(es: Entries, look: Look, pins: set<Digest>, cfg: Config)
    requires SupInv(es, pins, cfg)
    ensures Kept(es, Swept(es, look, cfg))
  {
    hide Owned;
  }

  lemma StepInv(es: Entries, a: Act, pins: set<Digest>, cfg: Config)
    requires SupInv(es, pins, cfg) && Possible(es, a, cfg)
    ensures SupInv(Step(es, a, cfg), pins, cfg)
  {
    hide SupInv, Rebalanced, Kept, Swept, OnRecruit;
    match a
    case Recruit(stream, _, look, _, _) =>
      if stream in es {
        RefreshKept(es, a, pins, cfg);
        KeptInv(es, Step(es, a, cfg), pins, cfg);
      } else {
        RecruitInv(es, a, pins, cfg);
      }
    case Release(stream, publisher) =>
      ReleaseKept(es, stream, publisher, pins, cfg);
      KeptInv(es, OnRelease(es, stream, publisher), pins, cfg);
    case Sweep(look, after) =>
      var left := Swept(es, look, cfg);
      SweptKept(es, look, pins, cfg);
      KeptInv(es, left, pins, cfg);
      RebalancedSame(left, after, cfg);
      SameInv(left, Rebalanced(left, after, cfg), pins, cfg);
  }

  lemma RefreshKept(es: Entries, a: Act, pins: set<Digest>, cfg: Config)
    requires SupInv(es, pins, cfg) && Possible(es, a, cfg) && a.Recruit? && a.stream in es
    ensures Kept(es, Step(es, a, cfg))
  {
    hide Owned;
  }

  lemma ReleaseKept(es: Entries, stream: Digest, publisher: Digest, pins: set<Digest>, cfg: Config)
    requires SupInv(es, pins, cfg)
    ensures Kept(es, OnRelease(es, stream, publisher))
  {
    hide Owned;
  }

  // ---- whole runs ----

  /** A supervisor from its start: the pinned streams, and nothing else. */
  ghost predicate IsSupRun(tr: seq<Entries>, acts: seq<Act>, cfg: Config) {
    && |tr| == |acts| + 1
    && (forall s :: s in tr[0] ==> tr[0][s].pinned && tr[0][s].publisher.None? && !tr[0][s].released)
    && forall i :: 0 <= i < |acts| ==> Possible(tr[i], acts[i], cfg) && tr[i + 1] == Step(tr[i], acts[i], cfg)
  }

  lemma SupRunStep(tr: seq<Entries>, acts: seq<Act>, cfg: Config, i: nat)
    requires IsSupRun(tr, acts, cfg) && i < |acts|
    ensures Possible(tr[i], acts[i], cfg) && tr[i + 1] == Step(tr[i], acts[i], cfg)
  {
    hide Possible, Step;
  }

  /** Over every run the pinned streams are exactly those it began with, no publisher holds more than its
      cap, and the streams never outnumber the pins or the capacity, whichever is more. */
  lemma {:induction false} SupervisorIsSafe(tr: seq<Entries>, acts: seq<Act>, cfg: Config, i: nat)
    requires IsSupRun(tr, acts, cfg) && i <= |acts|
    ensures SupInv(tr[i], tr[0].Keys, cfg)
    decreases i
  {
    hide Possible, Step;
    if i == 0 {
      assert Pins(tr[0]) == tr[0].Keys;
      forall p ensures Owned(tr[0], p) == {} {}
    } else {
      hide SupInv;
      SupervisorIsSafe(tr, acts, cfg, i - 1);
      SupRunStep(tr, acts, cfg, i - 1);
      StepInv(tr[i - 1], acts[i - 1], tr[0].Keys, cfg);
    }
  }

  /** Streams marked released and still here were so before, or were just released by their owner. */
  lemma ReleasedByOwner(es: Entries, a: Act, cfg: Config, s: Digest)
    requires Possible(es, a, cfg) && s in Step(es, a, cfg) && Step(es, a, cfg)[s].released
    ensures s in es && es[s].publisher == Step(es, a, cfg)[s].publisher
    ensures es[s].released || (es[s].publisher.Some? && a == Release(s, es[s].publisher.value))
  {
    hide Assign, Budgets, Admit, Evaluate;
    match a
    case Release(_, _) =>
    case Recruit(stream, publisher, look, spawned, after) =>
      if stream !in es {
        var d := Admit(publisher, stream, Views(es, look), cfg);
        if !d.Reject? && spawned {
          RebalancedSame(Hosting(Bumped(Collected(es, look), d), stream, publisher, cfg, after.now), after, cfg);
        }
      }
    case Sweep(look, after) => RebalancedSame(Swept(es, look, cfg), after, cfg);
  }

  /** Over every run a stream is only ever marked released by a release its own publisher sent. */
  lemma {:induction false} OnlyOwnersRelease(tr: seq<Entries>, acts: seq<Act>, cfg: Config, i: nat, s: Digest)
    requires IsSupRun(tr, acts, cfg) && i <= |acts| && s in tr[i] && tr[i][s].released
    ensures tr[i][s].publisher.Some? && exists k :: 0 <= k < i && acts[k] == Release(s, tr[i][s].publisher.value)
    decreases i
  {
    hide Possible, Step;
    if i > 0 {
      SupRunStep(tr, acts, cfg, i - 1);
      ReleasedByOwner(tr[i - 1], acts[i - 1], cfg, s);
      if tr[i - 1][s].released { OnlyOwnersRelease(tr, acts, cfg, i - 1, s); }
    }
  }

  ghost predicate Recruits(a: Act, s: Digest) { a.Recruit? && a.stream == s }

  ghost predicate OwnerReleases(a: Act, s: Digest, e: Entry) {
    a.Release? && a.stream == s && e.publisher == Some(a.publisher)
  }

  /** A stream that stays is marked after a step exactly when its owner just released it, or it was marked
      and nobody, owner or not, just recruited it. */
  lemma MarkedExactly(es: Entries, a: Act, cfg: Config, s: Digest)
    requires Possible(es, a, cfg) && s in es && s in Step(es, a, cfg)
    ensures Step(es, a, cfg)[s].released <==> OwnerReleases(a, s, es[s]) || (es[s].released && !Recruits(a, s))
    ensures Step(es, a, cfg)[s].publisher == es[s].publisher
  {
    hide Assign, Budgets, Admit, Evaluate;
    match a
    case Release(_, _) =>
    case Recruit(stream, publisher, look, spawned, after) =>
      if stream !in es {
        var d := Admit(publisher, stream, Views(es, look), cfg);
        if !d.Reject? && spawned {
          RebalancedSame(Hosting(Bumped(Collected(es, look), d), stream, publisher, cfg, after.now), after, cfg);
        }
      }
    case Sweep(look, after) => RebalancedSame(Swept(es, look, cfg), after, cfg);
  }

  ghost predicate NotRecruited(acts: seq<Act>, i: nat, j: nat, s: Digest) {
    forall k :: i <= k < j && k < |acts| ==> !Recruits(acts[k], s)
  }

  /** Over every run, while a stream is hosted without a break from `i` to `j`: it is marked at `j` exactly
      when it was marked at `i` or its owner released it since, with no recruitment of it, by anyone, after. */
  lemma {:induction false} MarksLastExactly(tr: seq<Entries>, acts: seq<Act>, cfg: Config, i: nat, j: nat, s: Digest)
    requires IsSupRun(tr, acts, cfg) && i <= j <= |acts| && (forall k :: i <= k <= j ==> s in tr[k])
    ensures tr[j][s].publisher == tr[i][s].publisher
    ensures tr[j][s].released <==>
            || (tr[i][s].released && NotRecruited(acts, i, j, s))
            || exists k :: i <= k < j && OwnerReleases(acts[k], s, tr[i][s]) && NotRecruited(acts, k + 1, j, s)
    decreases j
  {
    hide Possible, Step, Recruits, OwnerReleases;
    if i < j {
      MarksLastExactly(tr, acts, cfg, i, j - 1, s);
      SupRunStep(tr, acts, cfg, j - 1);
      MarkedExactly(tr[j - 1], acts[j - 1], cfg, s);
      SameOwner(acts[j - 1], s, tr[i][s], tr[j - 1][s]);
      forall k | i <= k <= j ensures NotRecruited(acts, k, j, s) <==>
                                       (k == j || (NotRecruited(acts, k, j - 1, s) && !Recruits(acts[j - 1], s))) {}
      if OwnerReleases(acts[j - 1], s, tr[i][s]) { assert NotRecruited(acts, j - 1 + 1, j, s); }
    }
  }

  lemma SameOwner(a: Act, s: Digest, d: Entry, e: Entry)
    requires d.publisher == e.publisher
    ensures OwnerReleases(a, s, d) <==> OwnerReleases(a, s, e)
    ensures OwnerReleases(a, s, d) ==> !Recruits(a, s)
  {}

  function Nobody(now: nat, order: seq<Digest>): Look { Look(now, _ => Snap(0, 0, 0, 0), order) }

  /** A run in which a stranger's recruitment clears the mark its owner's release set. */
  lemma StrangerClearsMark(cfg: Config, s: Digest, owner: Digest, stranger: Digest)
    returns (tr: seq<Entries>, acts: seq<Act>)
    requires cfg.Capacity() > 0 && cfg.perPublisherCap > 0
    ensures IsSupRun(tr, acts, cfg) && |acts| == 3 && s in tr[2] && s in tr[3]
    ensures acts[2].Recruit? && acts[2].publisher == stranger && tr[2][s].publisher == Some(owner)
    ensures tr[2][s].released && !tr[3][s].released
  {
    hide Assign, Budgets, Config.Capacity;
    var none, here := Nobody(0, []), Nobody(0, [s]);
    var a0, a1, a2 := Recruit(s, owner, none, true, here), Release(s, owner), Recruit(s, stranger, here, true, here);
    var e0: Entries := map[];
    assert Collected(e0, none) == e0 && Views(e0, none) == [];
    assert Admit(owner, s, [], cfg) == Accept;
    var hosted := Hosting(e0, s, owner, cfg, 0);
    assert hosted.Keys == {s};
    assert Possible(e0, a0, cfg);
    RebalancedSame(hosted, here, cfg);
    var e1 := Step(e0, a0, cfg);
    assert e1 == Rebalanced(hosted, here, cfg);
    hide Rebalanced, Admit;
    var e2 := Step(e1, a1, cfg);
    var e3 := Step(e2, a2, cfg);
    tr, acts := [e0, e1, e2, e3], [a0, a1, a2];
  }

  // ---- streams in use ----

  /** A look that finds the worker unpinned and its head stalled. */
  predicate StallsNow(e: Entry, snap: Snap, cfg: Config) {
    !e.pinned && snap.sinceHead >= cfg.stallEvict && (snap.head > 0 || snap.sinceSpawn >= cfg.joinGrace)
  }

  lemma SweepRemovesStalled(es: Entries, look: Look, after: Look, cfg: Config, s: Digest)
    requires Possible(es, Sweep(look, after), cfg) && s in es && look.report(s).peers > 0 && cfg.idleEvict > 0
    ensures s !in Step(es, Sweep(look, after), cfg) <==> StallsNow(es[s], look.report(s), cfg)
  {
    hide Assign, Budgets;
    RebalancedSame(Swept(es, look, cfg), after, cfg);
    ServingEvictsOnlyOnStall(ViewAt(es, look, s), cfg);
  }

  /** A sweep judges a stream that has not idled for the short limit the same, released or not. */
  lemma ReleaseSparesTheBusy(es: Entries, look: Look, cfg: Config, s: Digest)
    requires s in es && es[s].publisher.Some? && ViewAt(es, look, s).atZero < RELEASED_IDLE_EVICT
    ensures s in Swept(es, look, cfg) <==> s in Swept(OnRelease(es, s, es[s].publisher.value), look, cfg)
  {
    var after := OnRelease(es, s, es[s].publisher.value);
    ReleaseNeverKillsServing(ViewAt(es, look, s), cfg);
    assert ViewAt(after, look, s) == ViewAt(es, look, s).(released := true);
    assert es[s].released || ViewAt(es, look, s) == ViewAt(es, look, s).(released := false);
  }

  lemma RecruitSparesBusy(es: Entries, a: Act, cfg: Config, s: Digest)
    requires Possible(es, a, cfg) && a.Recruit? && s in es && (a.stream !in es ==> a.look.report(s).peers > 0)
    ensures s in Step(es, a, cfg)
  {
    hide Admit, Assign, Budgets, Views;
    if a.stream !in es {
      BumpedIsIdle(es, a.stream, a.publisher, a.look, cfg);
      var d := Admit(a.publisher, a.stream, Views(es, a.look), cfg);
      if !d.Reject? && a.spawned {
        var hosted := Hosting(Bumped(Collected(es, a.look), d), a.stream, a.publisher, cfg, a.after.now);
        RebalancedSame(hosted, a.after, cfg);
      }
    }
  }

  /** Over every run a stream that reports peers is removed exactly by a sweep that finds it unpinned and
      stalled: no recruitment displaces it and no release ends it. */
  lemma BusyStreamsLeaveOnlyByStalling(tr: seq<Entries>, acts: seq<Act>, cfg: Config, i: nat, s: Digest)
    requires IsSupRun(tr, acts, cfg) && i < |acts| && s in tr[i] && cfg.idleEvict > 0
    requires !acts[i].Release? ==> acts[i].look.report(s).peers > 0
    ensures s !in tr[i + 1] <==> acts[i].Sweep? && StallsNow(tr[i][s], acts[i].look.report(s), cfg)
  {
    hide Possible, Step, StallsNow;
    SupRunStep(tr, acts, cfg, i);
    match acts[i]
    case Recruit(_, _, _, _, _) => RecruitSparesBusy(tr[i], acts[i], cfg, s);
    case Release(stream, publisher) => ReleaseSpares(tr[i], stream, publisher, cfg, s);
    case Sweep(look, after) => SweepRemovesStalled(tr[i], look, after, cfg, s);
  }

  lemma ReleaseSpares(es: Entries, stream: Digest, publisher: Digest, cfg: Config, s: Digest)
    requires s in es
    ensures s in Step(es, Release(stream, publisher), cfg)
  {}

  // ---- budgets over runs ----

  /** The budgets now in force for the streams that reported peers, together. */
  ghost function Spent(es: Entries, report: Digest -> Snap, order: seq<Digest>): nat {
    if order == [] then 0 else
      var s := order[|order| - 1];
      Spent(es, report, order[..|order| - 1]) + if s in es && report(s).peers > 0 then es[s].lastBudget else 0
  }

  lemma {:induction false} SpentIsGranted(es: Entries, look: Look, cfg: Config, k: nat)
    requires Sees(look, es) && k <= |look.order|
    ensures Spent(Rebalanced(es, look, cfg), look.report, look.order[..k])
            == Granted(Views(es, look)[..k], Serving(Views(es, look)), cfg)
    decreases k
  {
    hide Rebalanced, Share, Serving;
    if k > 0 {
      SpentIsGranted(es, look, cfg, k - 1);
      assert look.order[..k][..k - 1] == look.order[..k - 1];
      assert Views(es, look)[..k][..k - 1] == Views(es, look)[..k - 1];
      assert look.order[k - 1] in look.order;
      RebalanceAssigns(es, look, cfg, k - 1);
    }
  }

  /** What a rebalance gives the serving streams fits the total when the table is within capacity. */
  lemma RebalanceFits(es: Entries, look: Look, cfg: Config)
    requires Sees(look, es) && |es| <= cfg.Capacity()
    ensures Spent(Rebalanced(es, look, cfg), look.report, look.order) <= cfg.totalBudget
  {
    hide Rebalanced, Spent, Granted, Serving, Config.Capacity;
    SpentIsGranted(es, look, cfg, |look.order|);
    assert look.order[..|look.order|] == look.order;
    var views := Views(es, look);
    assert views[..|views|] == views;
    OrderSize(look.order, es.Keys);
    WithinCapacityFits(views, cfg);
  }

  /** Whether the step ends in a rebalance. */
  ghost predicate Rebalances(es: Entries, a: Act, cfg: Config)
    requires Possible(es, a, cfg)
  {
    || a.Sweep?
    || (a.Recruit? && a.stream !in es && a.spawned && !Admit(a.publisher, a.stream, Views(es, a.look), cfg).Reject?)
  }

  /** While the pins fit the capacity, every rebalance of every run splits at most the total among the
      streams then serving. */
  lemma BudgetsFitTheTotal(tr: seq<Entries>, acts: seq<Act>, cfg: Config, i: nat)
    requires IsSupRun(tr, acts, cfg) && i < |acts| && |tr[0]| <= cfg.Capacity()
    requires Possible(tr[i], acts[i], cfg) && Rebalances(tr[i], acts[i], cfg)
    ensures Spent(tr[i + 1], acts[i].after.report, acts[i].after.order) <= cfg.totalBudget
  {
    hide Possible, Step, SupInv;
    SupervisorIsSafe(tr, acts, cfg, i + 1);
    SupRunStep(tr, acts, cfg, i);
    StepFits(tr[i], acts[i], cfg, tr[0].Keys);
  }

  lemma StepFits(es: Entries, a: Act, cfg: Config, pins: set<Digest>)
    requires Possible(es, a, cfg) && Rebalances(es, a, cfg) && SupInv(Step(es, a, cfg), pins, cfg)
             && |pins| <= cfg.Capacity()
    ensures Spent(Step(es, a, cfg), a.after.report, a.after.order) <= cfg.totalBudget
  {
    hide Spent, Admit, Swept, Assign, Config.Capacity;
    var before := if a.Sweep? then Swept(es, a.look, cfg)
                  else Hosting(Bumped(Collected(es, a.look), Admit(a.publisher, a.stream, Views(es, a.look), cfg)),
                               a.stream, a.publisher, cfg, a.after.now);
    assert Step(es, a, cfg) == Rebalanced(before, a.after, cfg);
    RebalancedSame(before, a.after, cfg);
    assert |before| == |before.Keys| == |Step(es, a, cfg).Keys| == |Step(es, a, cfg)|;
    RebalanceFits(before, a.after, cfg);
  }

  // ---- the object of the source ----

  class Relay {
    const cfg: Config
    var entries: map<Digest, Entry>

    ghost const pins: set<Digest>

    /** Everything proved of every run holds of the table. */
    ghost predicate Valid() reads this { SupInv(entries, pins, cfg) }

    /** The pinned workers share the total evenly, at the floor or above. */
    constructor (cfg: Config, names: set<Digest>, now: nat)
      ensures this.cfg == cfg && pins == names && Valid()
      ensures entries == map s | s in names :: NewEntry(true, None, Share(|names|, cfg), now)
    {
      this.cfg, pins := cfg, names;
      var budget := if names == {} then cfg.minBudget else Max(cfg.totalBudget / |names|, cfg.minBudget);
      entries := map s | s in names :: NewEntry(true, None, budget, now);
      new;
      assert entries.Keys == names && Pins(entries) == names;
      assert forall p :: Owned(entries, p) == {};
    }

    /** Take every worker's report, roll the idle clocks, and build the policy's views. */
    method CollectViews(look: Look) returns (views: seq<View>)
      requires Sees(look, entries)
      modifies this
      ensures entries == Collected(old(entries), look) && views == Views(old(entries), look)
    {
      views := [];
      ghost var before := entries;
      for i := 0 to |look.order|
        invariant entries.Keys == before.Keys
        invariant forall j :: 0 <= j < i ==>
                    entries[look.order[j]] == Rolled(before[look.order[j]], look.report(look.order[j]), look.now)
        invariant forall j :: i <= j < |look.order| ==> entries[look.order[j]] == before[look.order[j]]
        invariant views == Views(before, look)[..i]
      {
        var s := look.order[i];
        assert s in look.order;
        var e := Rolled(entries[s], look.report(s), look.now);
        entries := entries[s := e];
        views := views + [ViewOf(s, e, look.report(s), look.now)];
      }
      forall s | s in before ensures entries[s] == Collected(before, look)[s] {
        assert s in look.order;
        var j :| 0 <= j < |look.order| && look.order[j] == s;
      }
    }

    method Rebalance(look: Look)
      requires Sees(look, entries)
      modifies this
      ensures entries == Rebalanced(old(entries), look, cfg)
    {
      hide Assign, Budgets;
      var views := CollectViews(look);
      var split := Budgets(views, cfg);
      ghost var seen := entries;
      AssignNone(seen);
      for i := 0 to |split|
        invariant entries == Assign(seen, split[..i])
      {
        AssignMore(seen, split[..i], split[i]);
        assert split[..i + 1] == split[..i] + [split[i]];
        var (stream, bps) := split[i];
        if stream in entries && entries[stream].lastBudget != bps {
          entries := entries[stream := entries[stream].(lastBudget := bps)];
        }
      }
      assert split[..|split|] == split;
    }

    method OnReleaseMessage(stream: Digest, publisher: Digest)
      requires Valid()
      modifies this
      ensures entries == Step(old(entries), Release(stream, publisher), cfg) && Valid()
    {
      StepInv(entries, Release(stream, publisher), pins, cfg);
      hide SupInv;
      if stream in entries && entries[stream].publisher == Some(publisher) {
        entries := entries[stream := entries[stream].(released := true)];
      }
    }

    method OnRecruitment(stream: Digest, publisher: Digest, look: Look, spawned: bool, after: Look)
      requires Valid() && Possible(entries, Recruit(stream, publisher, look, spawned, after), cfg)
      modifies this
      ensures entries == Step(old(entries), Recruit(stream, publisher, look, spawned, after), cfg) && Valid()
    {
      hide Admit, Budgets, Assign, Views, Collected, SupInv;
      StepInv(entries, Recruit(stream, publisher, look, spawned, after), pins, cfg);
      if stream in entries {
        var e := entries[stream].(released := false);
        entries := entries[stream := if e.zeroSince.Some? then e.(zeroSince := Some(look.now)) else e];
        return;
      }
      ghost var before := entries;
      var views := CollectViews(look);
      var d := Admit(publisher, stream, views, cfg);
      match d {
        case Accept =>
        case AcceptEvicting(victim) => entries := entries - {victim};
        case Reject(_) => return;
      }
      assert entries == Bumped(Collected(before, look), d);
      if spawned {
        entries := entries[stream := NewEntry(false, Some(publisher), cfg.minBudget, after.now)];
        Rebalance(after);
      }
    }

    /** Judge everyone, park or wake, evict, then rebalance. */
    method SweepOnce(look: Look, after: Look)
      requires Valid() && Possible(entries, Sweep(look, after), cfg)
      modifies this
      ensures entries == Step(old(entries), Sweep(look, after), cfg) && Valid()
      ensures |pins| <= cfg.Capacity() ==> Spent(entries, after.report, after.order) <= cfg.totalBudget
    {
      hide SupInv, Spent, Config.Capacity;
      StepInv(entries, Sweep(look, after), pins, cfg);
      if |pins| <= cfg.Capacity() { StepFits(entries, Sweep(look, after), cfg, pins); }
      hide Swept, Rebalanced, Judged;
      ghost var before := entries;
      var views := CollectViews(look);
      ghost var seen := entries;
      var evictions := JudgeAll(views, look, before);
      ghost var judged := entries;
      entries := entries - evictions;
      SweptBy(before, seen, look, cfg, evictions, judged);
      Rebalance(after);
    }

    /** One pass of verdicts: park or wake each worker, and list those to evict. */
    method JudgeAll(views: seq<View>, look: Look, ghost before: Entries) returns (evictions: set<Digest>)
      requires Sees(look, before) && views == Views(before, look) && entries.Keys == before.Keys
      modifies this
      ensures entries.Keys == before.Keys
      ensures forall j :: 0 <= j < |look.order| ==>
                Settled(before, old(entries), look, cfg, evictions, entries, look.order[j])
    {
      hide Evaluate, Rolled;
      evictions := {};
      for i := 0 to |views|
        invariant entries.Keys == before.Keys
        invariant forall j :: 0 <= j < i ==> Settled(before, old(entries), look, cfg, evictions, entries, look.order[j])
        invariant forall j :: i <= j < |look.order| ==>
                    look.order[j] !in evictions && entries[look.order[j]] == old(entries)[look.order[j]]
      {
        var s := look.order[i];
        assert s in look.order;
        match Evaluate(views[i], cfg)
        case Evict(_) => evictions := evictions + {s};
        case Dormant => entries := entries[s := entries[s].(dormant := true)];
        case Serve => entries := entries[s := entries[s].(dormant := false)];
      }
    }
  }

  /** The verdict on `s` has been carried out. */
  ghost predicate Settled(before: Entries, seen: Entries, look: Look, cfg: Config, evictions: set<Digest>,
                          now: Entries, s: Digest)
  {
    s in before && s in seen && s in now
    && (s in evictions <==> Judged(before, look, cfg, s).Evict?)
    && (s !in evictions ==> now[s] == seen[s].(dormant := Judged(before, look, cfg, s).Dormant?))
  }

  lemma SweptBy(before: Entries, seen: Entries, look: Look, cfg: Config, evictions: set<Digest>, now: Entries)
    requires Sees(look, before) && seen == Collected(before, look) && now.Keys == before.Keys
    requires forall j :: 0 <= j < |look.order| ==> Settled(before, seen, look, cfg, evictions, now, look.order[j])
    ensures now - evictions == Swept(before, look, cfg)
  {
    hide Judged, Rolled;
    forall s | s in before ensures Settled(before, seen, look, cfg, evictions, now, s) {
      assert s in look.order;
      var j :| 0 <= j < |look.order| && look.order[j] == s;
    }
  }

  lemma AssignNone(es: Entries)
    ensures Assign(es, []) == es
  {}

  lemma AssignMore(es: Entries, bs: seq<(Digest, nat)>, b: (Digest, nat))
    ensures var done := Assign(es, bs);
            Assign(es, bs + [b]) == if b.0 in done then done[b.0 := done[b.0].(lastBudget := b.1)] else done
  {
    assert (bs + [b])[..|bs + [b]| - 1] == bs;
  }
}
