/** The relay's pure policy (crates/unstation-node/src/policy.rs): who is evicted, who is admitted,
    and how the uplink is split. Times are elapsed seconds. */
module Policy {
  import opened Common

  const RELEASED_IDLE_EVICT: nat := 60

  datatype Config = Config(maxStreams: nat, totalBudget: nat, minBudget: nat, idleEvict: nat, stallEvict: nat,
                           joinGrace: nat, dormantAfter: nat, perPublisherCap: nat) {
    /** Streams the budget carries at the per-stream floor. */
    function BudgetCapacity(): nat { totalBudget / Max(minBudget, 1) }

    function Capacity(): nat { Min(maxStreams, BudgetCapacity()) }
  }

  datatype View = View(stream: Digest, publisher: Option<Digest>, pinned: bool, peers: nat, head: Seq,
                       sinceHead: nat, sinceSpawn: nat, atZero: nat, released: bool)

  datatype Reason = Stalled | Idle | Released
  datatype Verdict = Serve | Dormant | Evict(reason: Reason)

  function Evaluate(v: View, cfg: Config): (r: Verdict)
    ensures v.pinned ==> !r.Evict?
  {
    if !v.pinned && v.sinceHead >= cfg.stallEvict && (v.head > 0 || v.sinceSpawn >= cfg.joinGrace) then Evict(Stalled)
    else if !v.pinned && v.released && v.atZero >= RELEASED_IDLE_EVICT then Evict(Released)
    else if !v.pinned && v.atZero >= cfg.idleEvict then Evict(Idle)
    else if v.atZero >= cfg.dormantAfter then Dormant
    else Serve
  }

  // ---- admission ----

  datatype Why = AlreadyServing | PublisherCap | EveryStreamHasPeers
  datatype Decision = Accept | AcceptEvicting(victim: Digest) | Reject(why: Why)

  /** Streams a publisher occupies, pins aside. */
  predicate Owns(v: View, publisher: Digest) { !v.pinned && v.publisher == Some(publisher) }

  function Load(views: seq<View>, publisher: Digest): nat {
    if views == [] then 0 else
      Load(views[..|views| - 1], publisher) + if Owns(views[|views| - 1], publisher) then 1 else 0
  }

  predicate Bumpable(v: View) { !v.pinned && v.peers == 0 }

  /** `a` has idled at least as long as `b`; spawn age breaks ties. */
  predicate IdlerOrEqual(a: View, b: View) {
    a.atZero > b.atZero || (a.atZero == b.atZero && a.sinceSpawn >= b.sinceSpawn)
  }

  /** The most idle bumpable stream; of equals, the last. */
  function Victim(views: seq<View>): Option<View> {
    if views == [] then None else
      var best, v := Victim(views[..|views| - 1]), views[|views| - 1];
      if Bumpable(v) && (best.None? || IdlerOrEqual(v, best.value)) then Some(v) else best
  }

  function Admit(publisher: Digest, stream: Digest, views: seq<View>, cfg: Config): Decision {
    if exists v :: v in views && v.stream == stream then Reject(AlreadyServing)
    else if Load(views, publisher) >= cfg.perPublisherCap then Reject(PublisherCap)
    else if |views| < cfg.Capacity() then Accept
    else match Victim(views)
      case Some(v) => AcceptEvicting(v.stream)
      case None => Reject(EveryStreamHasPeers)
  }

  /** The victim is an unpinned stream without peers, and no such stream has idled longer; there is one
      whenever any stream is bumpable. */
  lemma {:induction false} VictimIsIdlest(views: seq<View>)
    ensures Victim(views).Some? <==> exists v :: v in views && Bumpable(v)
    ensures Victim(views).Some? ==>
              && Victim(views).value in views && Bumpable(Victim(views).value)
              && forall v :: v in views && Bumpable(v) ==> IdlerOrEqual(Victim(views).value, v)
    decreases |views|
  {
    if views != [] {
      var init, v := views[..|views| - 1], views[|views| - 1];
      VictimIsIdlest(init);
      assert views == init + [v];
      if exists w :: w in views && Bumpable(w) {
        var w :| w in views && Bumpable(w);
        assert w in init || w == v;
      }
    }
  }

  /** Admission never displaces a pinned or busy stream, and never exceeds a cap it is responsible for. */
  lemma AdmissionIsSafe(publisher: Digest, stream: Digest, views: seq<View>, cfg: Config)
    ensures var d := Admit(publisher, stream, views, cfg);
            && (!d.Reject? ==>
                  Load(views, publisher) < cfg.perPublisherCap && forall v :: v in views ==> v.stream != stream)
            && (d.Accept? ==> |views| < cfg.Capacity())
            && (d.AcceptEvicting? ==> exists v :: v in views && v.stream == d.victim && Bumpable(v)
                                                  && forall w :: w in views && Bumpable(w) ==> IdlerOrEqual(v, w))
            && (d == Reject(EveryStreamHasPeers) ==> forall v :: v in views ==> !Bumpable(v))
  {
    hide Load, Victim, IdlerOrEqual;
    VictimIsIdlest(views);
  }

  // ---- budgets ----

  function Serving(views: seq<View>): nat {
    if views == [] then 0 else Serving(views[..|views| - 1]) + if views[|views| - 1].peers > 0 then 1 else 0
  }

  /** What each serving stream gets when `n` of them share the total. */
  function Share(n: nat, cfg: Config): nat { if n == 0 then cfg.minBudget else Max(cfg.totalBudget / n, cfg.minBudget) }

  function BudgetFor(v: View, n: nat, cfg: Config): nat { if v.peers > 0 then Share(n, cfg) else cfg.minBudget }

  function Budgets(views: seq<View>, cfg: Config): seq<(Digest, nat)> {
    seq(|views|, i requires 0 <= i < |views| => (views[i].stream, BudgetFor(views[i], Serving(views), cfg)))
  }

  /** What all serving streams are given together. */
  function Granted(views: seq<View>, n: nat, cfg: Config): nat {
    if views == [] then 0 else
      Granted(views[..|views| - 1], n, cfg) + if views[|views| - 1].peers > 0 then Share(n, cfg) else 0
  }

  lemma {:induction false} GrantedIsShares(views: seq<View>, n: nat, cfg: Config)
    ensures Granted(views, n, cfg) == Serving(views) * Share(n, cfg)
    decreases |views|
  {
    hide Share;
    if views != [] {
      GrantedIsShares(views[..|views| - 1], n, cfg);
      ScaleStep(Serving(views[..|views| - 1]), Share(n, cfg));
    }
  }

  /** The even split fits the total exactly when the floor for every serving stream does. */
  lemma SplitFitsExactly(views: seq<View>, cfg: Config)
    ensures Granted(views, Serving(views), cfg) <= cfg.totalBudget <==>
            Serving(views) * cfg.minBudget <= cfg.totalBudget
  {
    var n := Serving(views);
    GrantedIsShares(views, n, cfg);
    if n > 0 { SharesFit(n, cfg.totalBudget, cfg.minBudget); }
  }

  lemma SharesFit(n: nat, total: nat, floor: nat)
    requires n > 0
    ensures n * Max(total / n, floor) <= total <==> n * floor <= total
  {
    assert n * (total / n) <= total;
    if total / n < floor {
      assert total < n * (total / n + 1);
      Scale(n, total / n + 1, floor);
    } else {
      Scale(n, floor, total / n);
    }
  }

  lemma Scale(n: nat, a: nat, b: nat)
    requires a <= b
    ensures n * a <= n * b
  {}

  lemma {:induction false} ServingAtMostAll(views: seq<View>)
    ensures Serving(views) <= |views|
    decreases |views|
  {
    if views != [] { ServingAtMostAll(views[..|views| - 1]); }
  }

  /** While no more streams run than the capacity allows, the serving streams' budgets fit the total. */
  lemma WithinCapacityFits(views: seq<View>, cfg: Config)
    requires |views| <= cfg.Capacity()
    ensures Granted(views, Serving(views), cfg) <= cfg.totalBudget
  {
    hide Granted, Serving;
    SplitFitsExactly(views, cfg);
    ServingAtMostAll(views);
    CapacityFits(Serving(views), cfg);
  }

  lemma CapacityFits(n: nat, cfg: Config)
    requires n <= cfg.BudgetCapacity()
    ensures n * cfg.minBudget <= cfg.totalBudget
  {
    var d := Max(cfg.minBudget, 1);
    Scale(d, n, cfg.totalBudget / d);
    assert d * (cfg.totalBudget / d) <= cfg.totalBudget;
    Scale(n, cfg.minBudget, d);
  }

  /** A release only shortens the idle clock: it never evicts a stream that has not been idle that long. */
  lemma ReleaseNeverKillsServing(v: View, cfg: Config)
    requires v.atZero < RELEASED_IDLE_EVICT
    ensures Evaluate(v.(released := true), cfg) == Evaluate(v.(released := false), cfg)
  {}

  /** A stream with peers is evicted only when its head has stalled. */
  lemma ServingEvictsOnlyOnStall(v: View, cfg: Config)
    requires v.atZero == 0 && cfg.idleEvict > 0
    ensures Evaluate(v, cfg).Evict? <==>
            !v.pinned && v.sinceHead >= cfg.stallEvict && (v.head > 0 || v.sinceSpawn >= cfg.joinGrace)
  {}
}
