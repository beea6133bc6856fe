/** What the supervisor does with one stream, told from the workers' reports and the clock: when it is taken on,
    how long it has idled, when a sweep ends or parks it, and what it may spend. */
module SupervisorRuns {
  import opened Common
  import opened Policy
  import opened Supervisor

  // ---- the capacity ----

  /** A number of streams is within capacity exactly when the operator allows as many and the budget carries
      that many at the floor. */
  lemma CapacityMeans(n: nat, cfg: Config)
    ensures n <= cfg.Capacity() <==> n <= cfg.maxStreams && n * Max(cfg.minBudget, 1) <= cfg.totalBudget
  {
    var d := Max(cfg.minBudget, 1);
    var q := cfg.totalBudget / d;
    assert d * q <= cfg.totalBudget < d * (q + 1);
    if n <= q { Scale(d, n, q); } else { Scale(d, q + 1, n); }
  }

  // ---- a sweep ----

  /** Whole seconds without peers, as a look at `now` finds a stream whose clock reads `e.zeroSince`. */
  function IdleSeconds(e: Entry, snap: Snap, now: nat): nat {
    if snap.peers > 0 || e.zeroSince.None? then 0 else SatSub(now, e.zeroSince.value) / 1000
  }

  /** The look finds a reason to let the stream go. */
  ghost predicate Expendable(e: Entry, snap: Snap, now: nat, cfg: Config) {
    && !e.pinned
    && (StallsNow(e, snap, cfg)
        || (e.released && IdleSeconds(e, snap, now) >= 60)
        || IdleSeconds(e, snap, now) >= cfg.idleEvict)
  }

  lemma {:induction false} AssignKeeps(es: Entries, bs: seq<(Digest, nat)>)
    ensures var r := Assign(es, bs);
            r.Keys == es.Keys
            && forall s :: s in es ==> r[s].zeroSince == es[s].zeroSince && r[s].dormant == es[s].dormant
    decreases |bs|
  {
    if bs != [] { AssignKeeps(es, bs[..|bs| - 1]); }
  }

  lemma RebalancedClock(es: Entries, look: Look, cfg: Config, s: Digest)
    requires Sees(look, es) && s in es
    ensures var r := Rebalanced(es, look, cfg);
            s in r && r[s].zeroSince == Rolled(es[s], look.report(s), look.now).zeroSince
            && r[s].dormant == es[s].dormant
  {
    hide Assign, Budgets, Views;
    AssignKeeps(Collected(es, look), Budgets(Views(es, look), cfg));
  }

  /** A sweep lets a stream go exactly when it is unpinned and stalled, released and a minute idle, or idle for
      the configured time; of those it keeps, it parks exactly those idle for the shorter one, and it runs
      their idle clocks on. */
  lemma SweepExactly(es: Entries, look: Look, after: Look, cfg: Config, s: Digest)
    requires Possible(es, Sweep(look, after), cfg) && s in es
    ensures var r := Step(es, Sweep(look, after), cfg);
            && (s !in r <==> Expendable(es[s], look.report(s), look.now, cfg))
            && (s in r ==>
                  && (r[s].dormant <==> IdleSeconds(es[s], look.report(s), look.now) >= cfg.dormantAfter)
                  && r[s].zeroSince == if after.report(s).peers > 0 then None
                                       else if look.report(s).peers > 0 then Some(after.now)
                                       else if es[s].zeroSince.None? then Some(look.now)
                                       else es[s].zeroSince)
  {
    hide Rebalanced;
    var left := Swept(es, look, cfg);
    RebalancedSame(left, after, cfg);
    if s in left { RebalancedClock(left, after, cfg, s); }
  }

  // ---- idle streams end ----

  /** Every look the act takes at `s` finds it without peers, and nobody recruits it again. */
  ghost predicate Quiet(a: Act, s: Digest) {
    match a
    case Release(_, _) => true
    case Recruit(stream, _, look, _, after) =>
      stream != s && look.report(s).peers == 0 && after.report(s).peers == 0
    case Sweep(look, after) => look.report(s).peers == 0 && after.report(s).peers == 0
  }

  lemma RecruitClock(es: Entries, a: Act, cfg: Config, s: Digest)
    requires Possible(es, a, cfg) && a.Recruit? && Quiet(a, s) && s in es && es[s].zeroSince.Some?
    requires s in Step(es, a, cfg)
    ensures Step(es, a, cfg)[s].zeroSince == es[s].zeroSince
  {
    hide Admit, Rebalanced, Views;
    if a.stream !in es {
      var d := Admit(a.publisher, a.stream, Views(es, a.look), cfg);
      if !d.Reject? && a.spawned {
        var room := Bumped(Collected(es, a.look), d);
        var hosted := Hosting(room, a.stream, a.publisher, cfg, a.after.now);
        RebalancedSame(hosted, a.after, cfg);
        RebalancedClock(hosted, a.after, cfg, s);
      }
    }
  }

  lemma QuietClock(es: Entries, a: Act, cfg: Config, s: Digest)
    requires Possible(es, a, cfg) && Quiet(a, s) && s in es && es[s].zeroSince.Some? && s in Step(es, a, cfg)
    ensures Step(es, a, cfg)[s].zeroSince == es[s].zeroSince
  {
    match a
    case Release(_, _) =>
    case Recruit(_, _, _, _, _) => RecruitClock(es, a, cfg, s);
    case Sweep(look, after) => hide Step, Possible; SweepExactly(es, look, after, cfg, s);
  }

  /** While nobody watches a stream and nobody asks for it again, its idle clock stands. */
  lemma {:induction false} ClockStands(tr: seq<Entries>, acts: seq<Act>, cfg: Config, s: Digest, i: nat, j: nat)
    requires IsSupRun(tr, acts, cfg) && i <= j <= |acts| && (forall k :: i <= k <= j ==> s in tr[k])
    requires tr[i][s].zeroSince.Some? && forall k :: i <= k < j ==> Quiet(acts[k], s)
    ensures tr[j][s].zeroSince == tr[i][s].zeroSince
    decreases j
  {
    hide Possible, Step, Quiet;
    if i < j {
      ClockStands(tr, acts, cfg, s, i, j - 1);
      SupRunStep(tr, acts, cfg, j - 1);
      QuietClock(tr[j - 1], acts[j - 1], cfg, s);
    }
  }

  /** Over every run: an unpinned stream, neither stalled nor released, that nobody has watched or asked for
      since its idle clock started is ended by a sweep exactly when the configured time has passed by then. */
  lemma IdleStreamsEnd(tr: seq<Entries>, acts: seq<Act>, cfg: Config, s: Digest, i: nat, j: nat)
    requires IsSupRun(tr, acts, cfg) && i <= j < |acts| && (forall k :: i <= k <= j ==> s in tr[k])
    requires tr[i][s].zeroSince.Some? && (forall k :: i <= k <= j ==> Quiet(acts[k], s)) && acts[j].Sweep?
    requires !tr[j][s].pinned && !tr[j][s].released && !StallsNow(tr[j][s], acts[j].look.report(s), cfg)
    ensures s !in tr[j + 1] <==> SatSub(acts[j].look.now, tr[i][s].zeroSince.value) / 1000 >= cfg.idleEvict
  {
    ClockStands(tr, acts, cfg, s, i, j);
    SupRunStep(tr, acts, cfg, j);
    assert Quiet(acts[j], s);
    hide Possible, Step, IsSupRun, StallsNow;
    SweepExactly(tr[j], acts[j].look, acts[j].after, cfg, s);
  }

  /** A recruitment of a stream already here, by anyone, clears its mark and restarts its idle clock if it was
      running, and changes nothing else. */
  lemma RefreshExactly(es: Entries, a: Act, cfg: Config)
    requires Possible(es, a, cfg) && a.Recruit? && a.stream in es
    ensures var r := Step(es, a, cfg);
            && r.Keys == es.Keys && (forall s :: s in es && s != a.stream ==> r[s] == es[s])
            && !r[a.stream].released
            && r[a.stream].zeroSince == (if es[a.stream].zeroSince.Some? then Some(a.look.now) else None)
            && r[a.stream] == es[a.stream].(released := false, zeroSince := r[a.stream].zeroSince)
  {}

  // ---- admission ----

  ghost predicate Idle(es: Entries, look: Look, s: Digest) { s in es && !es[s].pinned && look.report(s).peers == 0 }

  lemma BumpableIsIdle(es: Entries, look: Look)
    requires Sees(look, es)
    ensures (exists v :: v in Views(es, look) && Bumpable(v)) <==> exists s :: Idle(es, look, s)
  {
    var views := Views(es, look);
    if exists v :: v in views && Bumpable(v) {
      var v :| v in views && Bumpable(v);
      var i :| 0 <= i < |views| && views[i] == v;
      assert look.order[i] in look.order;
      assert Idle(es, look, look.order[i]);
    }
    if exists s :: Idle(es, look, s) {
      var s :| Idle(es, look, s);
      assert s in look.order;
      var i :| 0 <= i < |look.order| && look.order[i] == s;
      assert views[i] in views && Bumpable(views[i]);
    }
  }

  lemma StrangerTo(es: Entries, look: Look, stream: Digest)
    requires Sees(look, es) && stream !in es
    ensures forall v :: v in Views(es, look) ==> v.stream != stream
  {
    forall v | v in Views(es, look) ensures v.stream != stream {
      var i :| 0 <= i < |look.order| && Views(es, look)[i] == v;
      assert look.order[i] in look.order;
    }
  }

  /** The policy takes a new stream on exactly when its publisher is below its cap and there is room, or some
      unpinned stream without peers to make it. */
  ghost predicate Welcome(es: Entries, publisher: Digest, look: Look, cfg: Config) {
    && |Owned(es, publisher)| < cfg.perPublisherCap
    && (|es| < cfg.Capacity() || exists s :: Idle(es, look, s))
  }

  lemma AdmitExactly(es: Entries, stream: Digest, publisher: Digest, look: Look, cfg: Config)
    requires Sees(look, es) && stream !in es
    ensures var d := Admit(publisher, stream, Views(es, look), cfg);
            && (!d.Reject? <==> Welcome(es, publisher, look, cfg))
            && (d.AcceptEvicting? ==> |es| >= cfg.Capacity())
  {
    hide Load, Victim, Views, Config.Capacity, Idle;
    var views := Views(es, look);
    StrangerTo(es, look, stream);
    LoadIsOwned(es, look, publisher);
    VictimIsIdlest(views);
    BumpableIsIdle(es, look);
  }

  /** A verified recruitment of a new stream ends with it hosted exactly when it is welcome and its worker
      starts; and it costs an existing stream its place only when the table was full. */
  lemma RecruitExactly(es: Entries, a: Act, cfg: Config)
    requires Possible(es, a, cfg) && a.Recruit? && a.stream !in es
    ensures a.stream in Step(es, a, cfg) <==> a.spawned && Welcome(es, a.publisher, a.look, cfg)
    ensures (exists s :: s in es && s !in Step(es, a, cfg)) ==>
              |es| >= cfg.Capacity() && |Owned(es, a.publisher)| < cfg.perPublisherCap
    ensures forall s, t :: s in es && t in es && s !in Step(es, a, cfg) && t !in Step(es, a, cfg) ==> s == t
  {
    hide Admit, Views, Rebalanced, Config.Capacity, Owned, Idle;
    AdmitExactly(es, a.stream, a.publisher, a.look, cfg);
    BumpedIsIdle(es, a.stream, a.publisher, a.look, cfg);
    var d := Admit(a.publisher, a.stream, Views(es, a.look), cfg);
    if !d.Reject? && a.spawned {
      RebalancedSame(Hosting(Bumped(Collected(es, a.look), d), a.stream, a.publisher, cfg, a.after.now), a.after, cfg);
    }
  }

  /** The stream that makes room has idled at least as long as any other that could. */
  lemma LongestIdleMakesRoom(es: Entries, a: Act, cfg: Config, s: Digest, t: Digest)
    requires Possible(es, a, cfg) && a.Recruit? && a.stream !in es && a.stream != s
    requires s in es && s !in Step(es, a, cfg) && Idle(es, a.look, t)
    ensures Idle(es, a.look, s)
    ensures IdleSeconds(es[t], a.look.report(t), a.look.now) <= IdleSeconds(es[s], a.look.report(s), a.look.now)
  {
    hide Admit, Rebalanced, Config.Capacity;
    BumpedIsIdle(es, a.stream, a.publisher, a.look, cfg);
    var views := Views(es, a.look);
    var d := Admit(a.publisher, a.stream, views, cfg);
    if !d.Reject? && a.spawned {
      RebalancedSame(Hosting(Bumped(Collected(es, a.look), d), a.stream, a.publisher, cfg, a.after.now), a.after, cfg);
    }
    assert d.AcceptEvicting? && d.victim == s;
    AdmissionIsSafe(a.publisher, a.stream, views, cfg);
    var v :| v in views && v.stream == s && Bumpable(v)
             && forall w :: w in views && Bumpable(w) ==> IdlerOrEqual(v, w);
    ViewIs(es, a.look, v);
    Seen(es, a.look, t);
    assert IdlerOrEqual(v, ViewAt(es, a.look, t));
  }

  lemma ViewIs(es: Entries, look: Look, v: View)
    requires Sees(look, es) && v in Views(es, look)
    ensures v.stream in es && v == ViewAt(es, look, v.stream)
  {
    var i :| 0 <= i < |look.order| && Views(es, look)[i] == v;
    assert look.order[i] in look.order;
  }

  lemma Seen(es: Entries, look: Look, t: Digest)
    requires Sees(look, es) && t in es
    ensures ViewAt(es, look, t) in Views(es, look)
  {
    assert t in look.order;
    var i :| 0 <= i < |look.order| && look.order[i] == t;
    assert Views(es, look)[i] == ViewAt(es, look, t);
  }

  // ---- budgets ----

  ghost function Busy(streams: set<Digest>, look: Look): set<Digest> {
    set s | s in streams && look.report(s).peers > 0
  }

  ghost function First<T>(order: seq<T>, k: nat): set<T>
    requires k <= |order|
  {
    set i | 0 <= i < k :: order[i]
  }

  lemma FirstGrows<T>(order: seq<T>, k: nat)
    requires 0 < k <= |order| && NoDup(order)
    ensures First(order, k) == First(order, k - 1) + {order[k - 1]} && order[k - 1] !in First(order, k - 1)
  {}

  lemma BusyGrows(streams: set<Digest>, look: Look, s: Digest)
    requires s !in streams
    ensures |Busy(streams + {s}, look)| == |Busy(streams, look)| + if look.report(s).peers > 0 then 1 else 0
  {
    assert Busy(streams + {s}, look) == Busy(streams, look) + if look.report(s).peers > 0 then {s} else {};
  }

  lemma {:induction false} ServingIsBusy(es: Entries, look: Look, k: nat)
    requires Sees(look, es) && k <= |look.order|
    ensures Serving(Views(es, look)[..k]) == |Busy(First(look.order, k), look)|
    decreases k
  {
    if k == 0 {
      assert Busy(First(look.order, 0), look) == {};
    } else {
      ServingIsBusy(es, look, k - 1);
      var views := Views(es, look);
      assert views[..k][..k - 1] == views[..k - 1];
      assert look.order[k - 1] in look.order;
      hide First, Busy;
      FirstGrows(look.order, k);
      BusyGrows(First(look.order, k - 1), look, look.order[k - 1]);
    }
  }

  lemma ServingCounts(es: Entries, look: Look)
    requires Sees(look, es)
    ensures Serving(Views(es, look)) == |Busy(es.Keys, look)|
  {
    hide Serving;
    var n := |look.order|;
    ServingIsBusy(es, look, n);
    assert Views(es, look)[..n] == Views(es, look);
    assert First(look.order, n) == es.Keys by {
      forall s | s in es ensures s in First(look.order, n) { assert s in look.order; }
      forall i | 0 <= i < n ensures look.order[i] in es { assert look.order[i] in look.order; }
    }
  }

  /** `b` is what a stream may spend when `k` serve: an even share of the total rounded down, or the floor if
      that is more; the floor for a stream without peers. */
  ghost predicate FairShare(b: nat, serving: bool, k: nat, cfg: Config) {
    if !serving then b == cfg.minBudget
    else cfg.minBudget <= b && cfg.totalBudget < (b + 1) * k && (b * k <= cfg.totalBudget || b == cfg.minBudget)
  }

  lemma ShareIsFair(n: nat, cfg: Config)
    requires n > 0
    ensures FairShare(Share(n, cfg), true, n, cfg)
  {
    var (q, b) := (cfg.totalBudget / n, Share(n, cfg));
    assert n * q <= cfg.totalBudget < n * (q + 1);
    Scale(n, q + 1, b + 1);
  }

  lemma SomeoneBusy(streams: set<Digest>, look: Look, s: Digest)
    requires s in streams && look.report(s).peers > 0
    ensures |Busy(streams, look)| > 0
  {
    assert s in Busy(streams, look);
  }

  /** After a rebalance each of the k streams with peers may spend an even share of the total. */
  lemma RebalanceIsFair(es: Entries, look: Look, cfg: Config, s: Digest)
    requires Sees(look, es) && s in es
    ensures s in Rebalanced(es, look, cfg)
    ensures FairShare(Rebalanced(es, look, cfg)[s].lastBudget, look.report(s).peers > 0, |Busy(es.Keys, look)|, cfg)
  {
    hide Rebalanced, Serving, Busy, Share, FairShare, Views;
    assert s in look.order;
    var i :| 0 <= i < |look.order| && look.order[i] == s;
    RebalanceAssigns(es, look, cfg, i);
    ServingCounts(es, look);
    if look.report(s).peers > 0 {
      SomeoneBusy(es.Keys, look, s);
      ShareIsFair(|Busy(es.Keys, look)|, cfg);
    } else {
      FloorIsFair(|Busy(es.Keys, look)|, cfg);
    }
  }

  lemma FloorIsFair(k: nat, cfg: Config)
    ensures FairShare(cfg.minBudget, false, k, cfg)
  {}

  /** Over every run, after every sweep and every stream taken on: each stream serving peers may spend an even
      share of the total or the floor, whichever is more, and every other stream the floor. */
  lemma EveryShareIsFair(tr: seq<Entries>, acts: seq<Act>, cfg: Config, i: nat, s: Digest)
    requires IsSupRun(tr, acts, cfg) && i < |acts| && s in tr[i + 1]
    requires Possible(tr[i], acts[i], cfg) && Rebalances(tr[i], acts[i], cfg)
    ensures FairShare(tr[i + 1][s].lastBudget, acts[i].after.report(s).peers > 0,
                      |Busy(tr[i + 1].Keys, acts[i].after)|, cfg)
  {
    SupRunStep(tr, acts, cfg, i);
    var es, a := tr[i], acts[i];
    hide IsSupRun, Admit, Swept, Rebalanced, FairShare, Busy, Views;
    var before := if a.Sweep? then Swept(es, a.look, cfg)
                  else Hosting(Bumped(Collected(es, a.look), Admit(a.publisher, a.stream, Views(es, a.look), cfg)),
                               a.stream, a.publisher, cfg, a.after.now);
    assert tr[i + 1] == Rebalanced(before, a.after, cfg);
    RebalancedSame(before, a.after, cfg);
    RebalanceIsFair(before, a.after, cfg, s);
  }
}
